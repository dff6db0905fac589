# A verified model of the AI site builder's core

The application teaches beginners to build and publish a web page. It has
five parts:

- a course of static pages;
- a glossary with a search box;
- a coding workshop that previews a sample page (or code handed to it);
- a floating tutor chat;
- an "AI Site Builder". The user chats with a model service, which answers
  with a full site (markup, styles, script) plus follow-up suggestions.

The builder keeps every version of the generated site in a bounded
undo/redo history. It composes a self-contained preview document from the
current version and resolves image placeholders against the images sent with
that version. A quota error from the model service starts a one-minute
cooldown that blocks further sends.

The model is split into these modules:

- `Strings`: the JavaScript string operations the code uses (`includes`,
  `indexOf`, `replace` with a string or a global pattern, an ASCII
  `toLowerCase`, the blank test `!s.trim()`, `join`, decimal rendering).
  A replacement text is inserted literally: the `$` patterns that
  JavaScript's `replace` expands are not modelled (see "Left out").
- `History`: the version history as pure functions: append with pruning
  and the 50-entry cap, undo and redo.
- `Preview`: the preview composition. It covers the viewport meta, style
  and script inlining (a tag matcher standing in for the two regular
  expressions) and placeholder substitution. The substitution is a loop
  method proved against its specification function.
- `Architect`: the model-service client in `services/geminiService.ts`.
  It covers quota classification, the retry loop with its delays, the
  conversation window, the prompt, the content parts, interpreting the
  service's reply, the quota response and the tutor service.
- `Builder`: the builder page's state as a `Session` class whose
  methods change its fields in place. Each method is proved equal to a
  pure step function on a `State` value, and the lemmas are stated over
  those step functions. The awaited send handler is split at the call into
  `BeginSend` and `FinishSend`. The reply is committed onto the history
  captured when the send began, as the source's closure does.
- `Tutor`: the tutor chat component, also a class over a state value.
- `Workshop`, `Glossary`, `App`: the coding workshop's file selection and
  preview, the glossary filter and colours, and the route-to-context
  mapping.
- `Scenarios`: end-to-end runs on concrete values, proved from the
  general definitions.

The model service is a parameter. A `seq<Outcome>` lists what each
successive call returns: either a reply with its text and its parsed
content, or a thrown error with its message. The API key, which the source
reads from the environment, is a parameter too.

## Model

| member | source | states |
|---|---|---|
| Strings.IndexOfFrom | services/geminiService.ts:141 | the result is the first index at or after `from` where the pattern occurs, or none when it occurs nowhere there |
| Strings.ReplaceFirst | pages/AIBuilder.tsx:227 | a string-pattern replace changes only the first occurrence and leaves an absent pattern's string unchanged; the result holds the replacement |
| Strings.ContainsLowerNoLetters | services/geminiService.ts:37 | searching the lowered text for a pattern without letters (such as `429`) is the same as searching the text itself |
| Strings.LowerIdempotent | services/geminiService.ts:37 | lowering twice is lowering once |
| Strings.NatToString | pages/AIBuilder.tsx:155 | the decimal rendering of a count is non-empty, all digits, without a leading zero unless it is `0`, and reads back as that count |
| Strings.NatToStringInjective | pages/AIBuilder.tsx:155 | different counts render differently, so each image index has its own placeholder |
| Strings.ReplaceAll | pages/AIBuilder.tsx:236-237 | a global replace leaves a string without the pattern unchanged; otherwise it keeps everything before the first occurrence and the result holds the replacement |
| History.InitialValid | pages/AIBuilder.tsx:34-35 | the initial history, one empty version with the cursor on it, is well formed |
| History.ResolveImages | pages/AIBuilder.tsx:90 | a commit takes the new images when there are any, and otherwise inherits the current version's images |
| History.Append | pages/AIBuilder.tsx:89-102 | a commit identical to the current version changes nothing. Any other commit drops the versions after the cursor, appends the candidate, evicts the oldest version when the count would exceed 50, and puts the cursor on the new last version; the history stays well formed |
| History.Undo | pages/AIBuilder.tsx:108-116 | undo moves the cursor back by one, and at the first version does nothing |
| History.Redo | pages/AIBuilder.tsx:118-126 | redo moves the cursor forward by one, and at the last version does nothing |
| History.UndoRedoInverse | pages/AIBuilder.tsx:108-126 | redo after undo, and undo after redo, return to the same cursor wherever the first move was possible |
| History.Push | pages/AIBuilder.tsx:98-100 | slicing the history after the cursor, pushing a candidate that differs from the current version and shifting past 50 entries gives exactly the commit's history and cursor |
| History.AppendIdempotent | pages/AIBuilder.tsx:91-96 | committing the same version twice is committing it once |
| History.PrunedFuture | pages/AIBuilder.tsx:98-102 | after an undo followed by a new commit there is nothing to redo |
| History.AppendBelowCap | pages/AIBuilder.tsx:98-99 | below the cap, a commit is the history up to the cursor followed by the candidate |
| History.AppendEvicts | pages/AIBuilder.tsx:100 | a commit onto a full history at its last version drops the oldest version |
| History.UndoTimesFloor | pages/AIBuilder.tsx:108-116 | n undos move the cursor back by n, stopping at the first version |
| History.AppendAllKeepsFirst | pages/AIBuilder.tsx:98-102 | while the cap is not reached, a run of commits keeps the first version and leaves the cursor on the last one |
| History.AppendsThenUndosReturnToEmpty | pages/AIBuilder.tsx:34-35 | fewer than 50 commits from the initial history, then as many undos, show the empty first version again |
| Preview.TagEnd | pages/AIBuilder.tsx:228 | a matched tag ends after its start and within the document |
| Preview.FindTagFrom | pages/AIBuilder.tsx:228 | the match found is the first tag at or after `from` matching the pattern (case-insensitive keyword, quoted attribute value before the first `>`, the required closing tag), or none exists |
| Preview.ReplaceTag | pages/AIBuilder.tsx:228 | the first matching tag is replaced by the block and the rest is kept; with no match the document is unchanged |
| Preview.ViewportStep | pages/AIBuilder.tsx:227 | a document without the viewport name gets the viewport meta right after its first `<head>`; otherwise it is unchanged |
| Preview.ViewportEnsured | pages/AIBuilder.tsx:227 | afterwards the viewport name is present exactly when it was already there or the document has a `<head>` |
| Preview.CssStep | pages/AIBuilder.tsx:228-229 | a document that mentions the style reference has its link tag replaced by the style block; otherwise the block goes after the first `<head>` |
| Preview.CssInlined | pages/AIBuilder.tsx:228-229 | when a place for it is found (a matching link tag when the document mentions `href="style.css"`, otherwise a `<head>`), the style block is in the result; otherwise the document is unchanged |
| Preview.JsStep | pages/AIBuilder.tsx:230-231 | a document that mentions the script reference has its script tag replaced by the script block; otherwise the block goes before the first `</body>` |
| Preview.JsInlined | pages/AIBuilder.tsx:230-231 | when a place for it is found (a matching script tag when the document mentions `src="script.js"`, otherwise a `</body>`), the script block is in the result; otherwise the document is unchanged |
| Preview.ResolvePlaceholders | pages/AIBuilder.tsx:233-239 | the loop over the images computes the placeholder substitution: each image replaces every occurrence of its indexed placeholder, and the first image also replaces the unindexed one |
| Preview.SubstituteFirstUntouched | pages/AIBuilder.tsx:235-238 | when none of the placeholders of the first n images occurs, the first n substitutions leave the document unchanged |
| Preview.SubstituteUntouched | pages/AIBuilder.tsx:233-239 | a document without any of the images' placeholders is returned unchanged |
| Preview.SinglePlaceholder | pages/AIBuilder.tsx:233-239 | with one image, a document holding its placeholder once between text without underscores, with image data without underscores, gets the image's data in its place and nothing else changed |
| Preview.InlineAssets | pages/AIBuilder.tsx:227-231 | the viewport, style and script steps in order. Stated by `ViewportEnsured`, `CssInlined`, `JsInlined` and `InlineUntouched` |
| Preview.SubstituteImages | pages/AIBuilder.tsx:233-239 | the placeholder substitution. `ResolvePlaceholders` is proved to compute it, and `SubstituteUntouched` and `SinglePlaceholder` state what it does |
| Preview.Compose | pages/AIBuilder.tsx:224-241 | `getPreviewDoc` on a version. `Builder.Session.PreviewDoc` is proved to return it, and `Scenarios.PlaceholderScenario` and `Scenarios.PlainNotInlined` state it on concrete shapes |
| Preview.InlineUntouched | pages/AIBuilder.tsx:227-231 | a document with no `<head>`, no `</body>` and no style or script reference passes the inlining steps unchanged |
| Architect.IsQuotaIgnoresCase | services/geminiService.ts:129 | classifying the lowered message is classifying the message |
| Architect.QuotaMentioned | services/geminiService.ts:129 | any message containing `quota`, in any letter case, is a quota error |
| Architect.StatusMentioned | services/geminiService.ts:129 | any message containing `429` is a quota error |
| Architect.IsQuota | services/geminiService.ts:129 | the quota test shared by the retry loop and the outer catch. Its properties are stated by `IsQuotaIgnoresCase`, `QuotaMentioned`, `StatusMentioned` and `NotQuota` |
| Architect.NotQuota | services/geminiService.ts:129 | a message with no `9` and no `q`/`Q` is not a quota error |
| Architect.CatchError | services/geminiService.ts:148-163 | a thrown error yields a response exactly when it is a quota error, and that response keeps the current code, has no script and no suggestions, and sets the quota flag and a 60-second wait |
| Architect.ScriptIncludeInserted | services/geminiService.ts:141-142 | markup that has a `</body>` but no script reference gets the deferred script include just before its first `</body>`, and then mentions the script |
| Architect.ScriptIncludeUnchanged | services/geminiService.ts:141 | markup that already mentions the script, or has no `</body>`, is kept as it is |
| Architect.ScriptIncludeIdempotent | services/geminiService.ts:141-143 | adding the script include twice is adding it once |
| Architect.WithScriptInclude | services/geminiService.ts:141-143 | the post-processing of the markup. Its behaviour is stated by `ScriptIncludeInserted`, `ScriptIncludeUnchanged` and `ScriptIncludeIdempotent` |
| Architect.Interpret | services/geminiService.ts:139-146 | reading a reply: empty text gives nothing, parsed content gets the script include, and a parse error is classified like a thrown error. Stated by `ResultForms` and `QuotaThenReply` |
| Architect.ArchitectResult | services/geminiService.ts:56-164 | the client's result for a key, the code and the backend's outcomes. Its properties are stated by `RetryPolicy`, `ResultForms`, `QuotaTwice` and `QuotaThenReply`, and `ChatWithArchitect` is proved to return it |
| Architect.CallWithRetries | services/geminiService.ts:105-137 | the retry loop makes the calls the policy allows, sends the same content parts on every call, waits 1500 ms before the second, and settles on the last outcome |
| Architect.RetryPolicy | services/geminiService.ts:102-137 | the service is called at most twice. A second call is made exactly when the first one failed with a quota error. A first failure that is not a quota error gives no response |
| Architect.ResultForms | services/geminiService.ts:102-163 | the result is nothing, the quota response, or the parsed reply with the script include added. When the last call failed, or its reply did not parse, the result is the quota response exactly when the error is a quota error, and nothing otherwise |
| Architect.QuotaTwice | services/geminiService.ts:128-134 | two quota errors in a row end in the quota response |
| Architect.QuotaThenReply | services/geminiService.ts:130-132 | a quota error followed by a reply gives that reply's interpretation |
| Architect.Recent | services/geminiService.ts:68 | the conversation window takes the last three messages, or all of them when there are fewer |
| Architect.Labels | services/geminiService.ts:68-69 | each message is labelled `User` or `Architect` by its role, in order |
| Architect.WindowIgnoresOlder | services/geminiService.ts:68-70 | messages before the last three do not change the window |
| Architect.WindowOfThree | services/geminiService.ts:68-70 | three messages are rendered as their labelled lines joined by newlines |
| Architect.PromptCarriesWindow | services/geminiService.ts:72-91 | the prompt contains the conversation window |
| Architect.PromptCarriesHtml | services/geminiService.ts:75-76 | the prompt contains the current markup, or `(Empty)` when there is none |
| Architect.PromptCarriesCss | services/geminiService.ts:77-78 | the prompt contains the current styles, or `(Empty)` when there are none |
| Architect.ImagePayload | services/geminiService.ts:97 | an image's payload is either the image itself or a non-empty text without a comma |
| Architect.PayloadWithoutComma | services/geminiService.ts:97 | an image without a comma is sent as it is |
| Architect.DataUrlPayload | services/geminiService.ts:97 | a data URL `header,data` is sent as its data |
| Architect.ImagePayloadField | services/geminiService.ts:97 | `split(',')[1]`, or the image when that is empty: without a comma, or with an empty field after the first comma, the image itself is sent. Otherwise the payload is the non-empty, comma-free text right after the first comma, ending at the end or at the next comma |
| Architect.ContentParts | services/geminiService.ts:93-100 | the content is the prompt followed by one PNG part per image, in order |
| Architect.BuildContentParts | services/geminiService.ts:93-100 | the loop builds exactly those content parts |
| Architect.ChatWithArchitect | services/geminiService.ts:56-164 | the result follows the retry policy. No call is made without an API key. Every call sends the prompt built from the current code, theme, arrangement and window, together with the images. A second call comes after a 1500 ms delay |
| Architect.GenerateWebsite | services/geminiService.ts:166-168 | generation from a prompt is a chat with one user message, no code and the `Auto` theme and arrangement |
| Architect.SingleUserWindow | services/geminiService.ts:167 | the window of a single user message is `User: ` followed by the prompt |
| Architect.GenerateWebsiteQuota | services/geminiService.ts:151-160 | two quota errors during generation give the quota response with empty code |
| Architect.TutorResponse | services/geminiService.ts:11-41 | `getTutorResponse` on a key and the service's outcome. Its answers are stated by `TutorPolicy` and `TutorAgreesWithArchitect` |
| Architect.TutorPolicy | services/geminiService.ts:11-42 | the tutor's answer is never empty. Without a key it is the missing-key text. A non-empty reply is returned as it is, and an empty one gives the retry hint. A quota error gives the traffic-limit text, and any other error the frozen text |
| Architect.TutorAgreesWithArchitect | services/geminiService.ts:37 | the tutor and the builder classify an error as a quota error identically |
| Architect.TutorContentsCarry | services/geminiService.ts:19-21 | the tutor request contains both the question and the page context |
| Builder.InitialConsistent | pages/AIBuilder.tsx:16-37 | the initial state shows the single empty version |
| Builder.CommitStep | pages/AIBuilder.tsx:89-106 | a commit keeps the displayed code equal to the version under the cursor and changes nothing but the history and the code. A redundant candidate changes nothing; any other is appended to the history captured at send time and displayed |
| Builder.UndoStep | pages/AIBuilder.tsx:108-116 | undo moves the cursor back and displays that version; nothing else changes |
| Builder.RedoStep | pages/AIBuilder.tsx:118-126 | redo moves the cursor forward and displays that version; nothing else changes |
| Builder.UndoRedoState | pages/AIBuilder.tsx:108-126 | redo after a possible undo restores the whole state |
| Builder.CooldownAfter | pages/AIBuilder.tsx:172 | the cooldown is the given wait when positive and 60 otherwise. Stated through `FinishBranches` and `QuotaLocksSending` |
| Builder.FinishStep | pages/AIBuilder.tsx:170-193 | the part of the send handler after the call. Its branches are stated by `FinishBranches` |
| Builder.TickStep | pages/AIBuilder.tsx:53-60 | a tick lowers a running cooldown by one second, never below zero, and changes nothing else |
| Builder.TicksCountDown | pages/AIBuilder.tsx:53-60 | n ticks lower the cooldown by n, stopping at zero, and change nothing else |
| Builder.BeginStep | pages/AIBuilder.tsx:147-166 | a send is ignored when there is neither text nor an image, a reply is pending, or the cooldown runs. Otherwise the user's message is appended, the input, images and suggestions are cleared, generation starts, and the history, cursor, images, conversation, code, theme and arrangement are captured for the call |
| Builder.FinishBranches | pages/AIBuilder.tsx:168-193 | after the call exactly one reply is appended and generation ends. With no result nothing else changes. A quota result starts a positive cooldown and leaves the code as it was. A successful result sets the suggestions and commits its code, with the images sent, onto the captured history |
| Builder.UserMessageNonEmpty | pages/AIBuilder.tsx:155 | an accepted send always shows a non-empty user message |
| Builder.SendRoundTrip | pages/AIBuilder.tsx:147-194 | a send appends the user's message and then the reply, in that order, and clears the input and images. A failed or quota-limited send leaves the history and cursor unchanged |
| Builder.QuotaLocksSending | pages/AIBuilder.tsx:149-172 | after a quota result, every send is refused until the cooldown has ticked down to zero |
| Builder.CooldownReopens | pages/AIBuilder.tsx:149 | once the cooldown has ticked down, a non-blank send is accepted again |
| Builder.CommitIgnoresInterimUndo | pages/AIBuilder.tsx:168-174 | an undo made while a reply is pending does not affect where the reply's version goes in the history, when that version differs from the one under the captured cursor |
| Builder.RemoveAt | pages/AIBuilder.tsx:143-144 | removing an image keeps the others in order, and an index out of range changes nothing |
| Builder.Session.constructor | pages/AIBuilder.tsx:16-37 | a new session is the initial state |
| Builder.Session.UpdateCode | pages/AIBuilder.tsx:89-106 | the in-place commit (slice, push, shift) yields the commit step's state |
| Builder.Session.Undo | pages/AIBuilder.tsx:108-116 | the in-place undo yields the undo step's state |
| Builder.Session.Redo | pages/AIBuilder.tsx:118-126 | the in-place redo yields the redo step's state |
| Builder.Session.Tick | pages/AIBuilder.tsx:55-57 | one timer tick yields the tick step's state |
| Builder.Session.SetInput | pages/AIBuilder.tsx:335 | typing into the message box changes only the input |
| Builder.Session.AttachImages | pages/AIBuilder.tsx:136-138 | loaded images are appended to the selection, and nothing else changes |
| Builder.Session.RemoveImage | pages/AIBuilder.tsx:143-145 | one image is removed from the selection, and nothing else changes |
| Builder.Session.BeginSend | pages/AIBuilder.tsx:147-166 | the handler up to the call yields the begin step's state and captured view |
| Builder.Session.FinishSend | pages/AIBuilder.tsx:170-193 | the handler after the call yields the finish step's state |
| Builder.Session.SendMessage | pages/AIBuilder.tsx:147-194 | a whole send: a refused send changes nothing and calls nothing. An accepted one calls the service as the client does, sending on every call the prompt built from the captured code, theme, arrangement and window with the images, waiting 1500 ms before a second call, and ends in the finish step applied to its result |
| Builder.Session.Download | pages/AIBuilder.tsx:196-205 | there are no files without markup. Otherwise the files are the markup with the current version's placeholders resolved, the styles and the script |
| Builder.Session.PreviewDoc | pages/AIBuilder.tsx:224-241 | the step-by-step preview is the composition (viewport, styles, script, placeholders) of the version under the cursor |
| Tutor.BeginStep | components/GeminiTutor.tsx:32-44 | a blank input or a pending answer ignores the send. Otherwise the typed input becomes a user message, the input is cleared and loading starts |
| Tutor.InitialConversation | components/GeminiTutor.tsx:11-21 | the chat starts with only the welcome message and not loading |
| Tutor.StepsKeepConversation | components/GeminiTutor.tsx:32-57 | both halves of a send keep the conversation's shape: the welcome first, then alternating roles, ending on the user exactly while loading |
| Tutor.SendAppendsInOrder | components/GeminiTutor.tsx:32-57 | an accepted send appends the question and then exactly one answer, clears the input and ends loading |
| Tutor.TutorChat.constructor | components/GeminiTutor.tsx:11-21 | a new chat is the initial state |
| Tutor.TutorChat.SetOpen | components/GeminiTutor.tsx:11 | opening or closing changes only the open flag |
| Tutor.TutorChat.SetInput | components/GeminiTutor.tsx:12 | typing changes only the input |
| Tutor.TutorChat.BeginSend | components/GeminiTutor.tsx:32-44 | the handler up to the call yields the begin step |
| Tutor.TutorChat.FinishSend | components/GeminiTutor.tsx:46-56 | the handler after the call appends the answer and ends loading |
| Tutor.TutorChat.Send | components/GeminiTutor.tsx:32-57 | a whole send: an ignored send changes nothing. An accepted one asks the service with the question and context (when there is a key) and appends the tutor's answer |
| Workshop.HtmlCode | pages/CodingWorkshop.tsx:102 | the handed-over markup when non-empty, otherwise the sample's. Stated by `SampleWhenNotCustom`, `EachFileFallsBack` and `FilesIndependent` |
| Workshop.PreviewDoc | pages/CodingWorkshop.tsx:107-117 | the workshop's preview document. Stated by `InlineStylesPlaced`, `SampleShapeInlines` and `SamplePreviewInlined` |
| Workshop.SampleWhenNotCustom | pages/CodingWorkshop.tsx:102-104 | without handed-over code the workshop shows the three sample files |
| Workshop.EachFileFallsBack | pages/CodingWorkshop.tsx:102-104 | each handed-over file is used when non-empty and otherwise replaced by its sample |
| Workshop.FilesIndependent | pages/CodingWorkshop.tsx:102 | the markup shown does not depend on the handed-over styles or script |
| Workshop.InlineStylesPlaced | pages/CodingWorkshop.tsx:107-110 | the first exact stylesheet link is replaced by the style block; without one the markup is unchanged |
| Workshop.SampleScriptTagMatches | pages/CodingWorkshop.tsx:113-114 | the sample's script tag is matched by the script pattern wherever it stands |
| Workshop.SampleShapeInlines | pages/CodingWorkshop.tsx:107-117 | markup shaped like the sample has both its styles and its script inlined |
| Workshop.SamplePreviewInlined | pages/CodingWorkshop.tsx:14-117 | the sample page's preview holds the sample styles and the sample script |
| Glossary.Filter | pages/Glossary.tsx:91-94 | the filtered list holds exactly the terms whose name or definition contains the search, ignoring case |
| Glossary.Matches | pages/Glossary.tsx:92-93 | the search test. `Filter` keeps exactly the terms it accepts, and `SearchIgnoresCase` shows it ignores letter case |
| Glossary.FilterKeepsOrder | pages/Glossary.tsx:91-94 | filtering keeps the terms in their original order |
| Glossary.EmptySearchKeepsAll | pages/Glossary.tsx:91-94 | an empty search lists every term |
| Glossary.EmptySearchListsTable | pages/Glossary.tsx:10-94 | with an empty search all 15 terms of the table are listed |
| Glossary.SearchIgnoresCase | pages/Glossary.tsx:92-93 | searching for the lowered text gives the same list |
| Glossary.CategoryColorsDistinct | pages/Glossary.tsx:96-104 | the four categories have four different colours, none of them the default, and any other name gets the default |
| Glossary.CategoryColor | pages/Glossary.tsx:96-104 | `getCategoryColor`. Stated by `ColorOfName` and `CategoryColorsDistinct` |
| Glossary.BadgeNotDefault | pages/Glossary.tsx:97-103 | no category's badge is the default colour |
| Glossary.BadgesDiffer | pages/Glossary.tsx:97-102 | two different categories have different badges |
| Glossary.ColorOfName | pages/Glossary.tsx:96-104 | a category's own name selects that category's badge classes |
| App.StepsTable | App.tsx:17-21 | the course has three active steps, setup, code and deploy, each at the path named after it |
| App.ContextPrecedence | App.tsx:24-29 | the tutor context is chosen by the last matching keyword, in the order builder, glossary, deploy, code, setup, and is the welcome context when none matches |
| App.CurrentContext | App.tsx:23-29 | the context chain. Stated by `ContextPrecedence`, `ContextRange` and the per-page lemmas |
| App.ContextRange | App.tsx:24-29 | the context is always one of the six known texts |
| App.RootContext | App.tsx:24 | the root path gives the welcome context |
| App.SetupPageContext | App.tsx:25 | the setup page gives the setup context |
| App.CodePageContext | App.tsx:26 | the code page gives the coding context |
| App.DeployPageContext | App.tsx:27 | the deploy page gives the deployment context |
| App.GlossaryPageContext | App.tsx:28 | the glossary page gives the glossary context |
| App.BuilderPageContext | App.tsx:29 | the builder page gives the builder context |
| App.StepContexts | App.tsx:17-29 | each course step's path gives that step's context |
| Scenarios.PlainNotInlined | pages/AIBuilder.tsx:227-231 | markup without the letters `h`, `b` and `j`, hence with no `<head>`, no `</body>` and no asset reference, passes the viewport, style and script steps unchanged |
| Scenarios.PlaceholderScenario | pages/AIBuilder.tsx:224-240 | a version, with any styles and script, whose markup is the first image's placeholder between plain text (no `h`, `b`, `j` or `_`), with image data without `_`, previews with the image's data in its place and nothing else changed |
| Scenarios.QuotaEscalation | pages/AIBuilder.tsx:147-194 | a first send that meets two quota errors leaves the empty history. It shows the quota message after the user's, starts a 60-second cooldown and refuses the next send |
| Scenarios.FirstGeneration | pages/AIBuilder.tsx:147-194 | a first successful send makes the reply's code the second version, shown with its suggestions, and undo brings back the empty version |
| Scenarios.EndToEnd | pages/AIBuilder.tsx:147-194 | `build a landing page` answered with `<h1>Hi</h1>` and one suggestion gives two versions with the cursor on the new one, shows that markup, and offers that suggestion |
| Scenarios.FailureIsolation | pages/AIBuilder.tsx:184-193 | a failing first send that is not a quota error keeps the history on the empty version. It shows only the user's message and the apology, and starts no cooldown |

## Left out

- The rendered interface is not modelled: markup, styling classes, icons, tabs, `mobileTab`, the device selector, scrolling into view and navigation.
- The preview's scaling computation (pages/AIBuilder.tsx:67-87) is not modelled. It is floating-point layout arithmetic over the window's size.
- File reading (pages/AIBuilder.tsx:128-141) is not modelled. `AttachImages` takes the data URLs the file reader would produce and models only the append.
- Downloading (pages/AIBuilder.tsx:206-221) stops at the three file contents. Blobs, links and the 200/400 ms timers are browser I/O.
- The once-a-second `setInterval` is a `Tick` method that the environment calls. The timer's life cycle is not modelled.
- Message ids and timestamps are dropped from `ChatMessage`: they come from the clock.
- The SDK call, model name, system instruction and response schema are not modelled. Each call is an element of the backend sequence.
- `JSON.parse` is not modelled: a reply carries its parsed result, a parse failure or a missing markup field.
- The API key is a parameter instead of `process.env.API_KEY`, read once at module load in the source.
- The retry delay is not awaited. It is returned as the list of delays the client would wait.
- `Preview.ReplaceTag`: the two regular expressions are a hand-written matcher. It takes the earliest tag that opens with the keyword (in any case), carries the quoted attribute value within the tag, and is followed by `</script>` for scripts. Backtracking corner cases of `[^>]*`, other than the first `>` closing the tag, are not modelled.
- Strings.Lower: `toLowerCase` and `trim` are modelled on ASCII only: no Unicode case mapping and no Unicode white space.
- Preview.ResolvePlaceholders: there is no general "no placeholder remains" claim. An image's data may itself contain a placeholder, and placeholders can overlap, so the contract states the substitution exactly instead. The single-image case is proved in `Preview.SinglePlaceholder` and `Scenarios.PlaceholderScenario`.
- Preview.SubstituteImages: same reason as `ResolvePlaceholders`. The regular expression is treated as a literal pattern, which holds because the placeholders contain no metacharacters.
- Architect.ChatWithArchitect requires at least two backend outcomes. This only makes sure an outcome exists for every call the retry loop can make; it excludes no behaviour.
- Builder.Session.SetInput: the message box is disabled while a reply is pending or the cooldown runs (pages/AIBuilder.tsx:336). That is a rendering attribute, so the model lets the environment call `SetInput` at any time, as the handler itself does not check.
- Architect.Interpret: a reply whose `html` is an array is not modelled. An array has its own `includes`, so the source returns it without a type error, while the model's `Parse` has no case for it.
- Architect.Response gives `retryAfterSeconds` as an optional natural number. The client's own quota response sets it to 60 (services/geminiService.ts:159). The response schema (services/geminiService.ts:113-123) requests neither it nor `quotaExceeded`, but the parsed reply is not validated (services/geminiService.ts:140), so a service reply could carry either field with any JSON value. A negative, fractional or non-numeric wait is outside the model.
- Preview.CssStep: the style block is inserted literally. JavaScript's `replace` expands `$&`, `` $` ``, `$'` and `$$` in the replacement text, so styles containing those sequences are outside the model.
- Preview.JsStep: the script block is inserted literally; a script containing `$&`, `` $` ``, `$'` or `$$` is outside the model for the same reason.
- Preview.SubstituteOne: the image data is inserted literally; image data containing `$` patterns is outside the model (data URLs in base64 contain no `$`).
- Workshop.InlineStyles: the style block is inserted literally, as for `Preview.CssStep`; the same holds for the workshop's script block.
- The static course pages (welcome, setup, deployment) and the sidebar are not modelled: they hold no logic beyond rendering.

### Where the behaviour differs from its description

- A reply whose parsed content lacks a field other than the markup is passed on as it is, because the code dereferences only `html`. Content whose markup is missing, `null`, a number, a boolean or an object makes `.includes` throw a type error, which is not a quota error, so the result is nothing. A syntax error in the reply is caught and classified like any other error, so one whose message mentions a quota becomes the quota response (`Architect.Interpret`).
- `result.retryAfterSeconds || 60` turns a wait of 0 into 60 (`Builder.CooldownAfter`). A quota result sets the cooldown outright rather than keeping the longer of the two.
- The images of a commit replace the current version's images and are never combined with them. A version without new images inherits the previous version's images.
- The style link is matched by its double-quoted `href="style.css"` mention. A single-quoted link fails that test: the styles then go after `<head>` and the link stays in place.
- The reply is committed onto the history captured when the send began. An undo or redo made while the reply is pending is therefore discarded when the reply is committed (`Builder.CommitIgnoresInterimUndo`). The exception is a reply identical to the version under the captured cursor: then `updateCode` returns early (pages/AIBuilder.tsx:91-96) and the interim undo or redo stays in effect.
- The workshop inlines only an exact `<link rel="stylesheet" href="style.css">`. It has no fallback that inserts the styles after `<head>`.
- "n commits followed by n undos show the empty first version" holds only for fewer than 50 commits. After 50 distinct commits the empty version has been evicted (`History.AppendEvicts`), so `History.AppendsThenUndosReturnToEmpty` requires fewer than 50.
