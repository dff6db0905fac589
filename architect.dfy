/**
 * The generation client of services/geminiService.ts: the architect call
 * (`chatWithArchitect`) with its conversation window, image payloads, bounded
 * retry loop, script-include post-processing and error normalisation, the
 * one-shot `generateWebsite`, and the tutor's answer policy
 * (`getTutorResponse`).
 *
 * The model service is a parameter: the architect's backend is the sequence of
 * outcomes its successive calls produce, and the tutor's is the outcome of its
 * one call. Waiting is recorded as the list of delays, in milliseconds.
 */
module Architect {
  import opened Wrappers
  import opened Strings

  // ---------------------------------------------------------------------
  // Messages, responses and backend outcomes
  // ---------------------------------------------------------------------

  datatype Role = User | Model

  /** A chat message; its id and timestamp are opaque to every operation modelled here and are omitted. */
  datatype ChatMessage = ChatMessage(role: Role, text: string, images: seq<string>)

  /**
   * An architect response. `quotaExceeded` absent is `false`;
   * `retryAfterSeconds` absent is `None`.
   */
  datatype Response = Response(
    message: string,
    html: string,
    css: string,
    javascript: string,
    suggestions: seq<string>,
    quotaExceeded: bool,
    retryAfterSeconds: Option<nat>)

  /**
   * What `JSON.parse(response.text)` followed by reading `data.html` as a string
   * yields: an object with string markup; a value whose `html` is missing,
   * `null`, a number, a boolean or an object, on which `.includes` throws a
   * `TypeError` whose message mentions neither `429` nor a quota; or a syntax
   * error with its message. Array-valued markup, which has an `includes` of its
   * own, is not modelled.
   */
  datatype Parse = Parsed(data: Response) | NoHtml | Malformed(error: string)

  /** One call of the model service: a reply with its text, or a thrown error rendered by `toString`. */
  datatype Outcome = Reply(text: string, parse: Parse) | Failure(error: string)

  /** What one call sends: the prompt, then one inline image per attached image. */
  datatype Part = TextPart(text: string) | ImagePart(mimeType: string, data: string)

  // ---------------------------------------------------------------------
  // Error classification
  // ---------------------------------------------------------------------

  /** The error text mentions the HTTP status 429 or, in any letter case, a quota. */
  predicate IsQuota(error: string) {
    Contains(error, "429") || Contains(Lower(error), "quota")
  }

  /** The classification ignores letter case. */
  lemma IsQuotaIgnoresCase(error: string)
    ensures IsQuota(Lower(error)) == IsQuota(error)
  {
    ContainsLowerNoLetters(error, "429");
    LowerIdempotent(error);
  }

  /** Any error mentioning `quota` in any letter case is a quota error. */
  lemma QuotaMentioned(a: string, word: string, b: string)
    requires Lower(word) == "quota"
    ensures IsQuota(a + word + b)
  {
    var e := a + word + b;
    assert Lower(e) == Lower(a) + Lower(word) + Lower(b);
    ContainsSelf("quota");
    ContainsInfix(Lower(a), "quota", Lower(b), "quota");
  }

  /** Any error mentioning the status 429 is a quota error. */
  lemma StatusMentioned(a: string, b: string)
    ensures IsQuota(a + "429" + b)
  {
    ContainsSelf("429");
    ContainsInfix(a, "429", b, "429");
  }

  /** An error without the digit 9 and without the letter q in either case is not a quota error. */
  lemma NotQuota(error: string)
    requires '9' !in error && 'q' !in error && 'Q' !in error
    ensures !IsQuota(error)
  {
    MissingChar(error, "429", '9');
    assert 'q' !in Lower(error);
    MissingChar(Lower(error), "quota", 'q');
  }

  // ---------------------------------------------------------------------
  // Normalising outcomes
  // ---------------------------------------------------------------------

  const QuotaMessage := "\U{26A0}\U{FE0F} **Quota Limit Reached.**"

  /** The standard wait, in seconds, before the per-minute quota resets. */
  const QuotaWaitSeconds: nat := 60

  /** The quota response: the code sent is handed back untouched and no script or suggestion comes with it. */
  function QuotaResponse(currentHtml: string, currentCss: string): Response {
    Response(QuotaMessage, currentHtml, currentCss, "", [], true, Some(QuotaWaitSeconds))
  }

  /** The outer `catch`: a quota error becomes the quota response, anything else `null`. */
  function CatchError(error: string, currentHtml: string, currentCss: string): (r: Option<Response>)
    ensures r.Some? <==> IsQuota(error)
    ensures r.Some? ==> r.value == QuotaResponse(currentHtml, currentCss)
  {
    if IsQuota(error) then Some(QuotaResponse(currentHtml, currentCss)) else None
  }

  const ScriptFile := "script.js"

  /** The include that the post-processing puts in place of the first `</body>`. */
  const ScriptIncludeTag := "    <script src=\"" + ScriptFile + "\" defer></script>\n</body>"

  /** Markup that neither mentions `script.js` nor lacks `</body>` gets the include before its first `</body>`. */
  function WithScriptInclude(html: string): string {
    if !Contains(html, ScriptFile) && Contains(html, "</body>") then ReplaceFirst(html, "</body>", ScriptIncludeTag)
    else html
  }

  /**
   * The post-processing inserts the include right before the first `</body>`
   * exactly when the markup lacks `script.js` and has a `</body>`, and the
   * result then mentions `script.js`.
   */
  lemma ScriptIncludeInserted(html: string)
    requires !Contains(html, ScriptFile) && Contains(html, "</body>")
    ensures var k := IndexOf(html, "</body>").value;
      WithScriptInclude(html) == html[..k] + ScriptIncludeTag + html[k + 7..]
    ensures Contains(WithScriptInclude(html), ScriptFile)
  {
    ContainsSelf(ScriptFile);
    ContainsInfix("    <script src=\"", ScriptFile, "\" defer></script>\n</body>", ScriptFile);
    ContainsTransitive(WithScriptInclude(html), ScriptIncludeTag, ScriptFile);
  }

  /** Otherwise the markup is returned as it is. */
  lemma ScriptIncludeUnchanged(html: string)
    requires Contains(html, ScriptFile) || !Contains(html, "</body>")
    ensures WithScriptInclude(html) == html
  {
  }

  /** Post-processing twice is post-processing once. */
  lemma ScriptIncludeIdempotent(html: string)
    ensures WithScriptInclude(WithScriptInclude(html)) == WithScriptInclude(html)
  {
    if !Contains(html, ScriptFile) && Contains(html, "</body>") {
      ScriptIncludeInserted(html);
    }
  }

  /**
   * A reply: empty text means `null`; a parsed object comes back with its
   * markup post-processed; a value without string markup is `null`; a parse
   * error is classified like any other thrown error.
   */
  function Interpret(text: string, parse: Parse, currentHtml: string, currentCss: string): Option<Response> {
    if text == "" then None
    else
      match parse
      case Parsed(data) => Some(data.(html := WithScriptInclude(data.html)))
      case NoHtml => None
      case Malformed(error) => CatchError(error, currentHtml, currentCss)
  }

  /** The response for the outcome of the last call made. */
  function Settle(last: Outcome, currentHtml: string, currentCss: string): Option<Response> {
    match last
    case Failure(error) => CatchError(error, currentHtml, currentCss)
    case Reply(text, parse) => Interpret(text, parse, currentHtml, currentCss)
  }

  // ---------------------------------------------------------------------
  // The retry policy
  // ---------------------------------------------------------------------

  const MaxRetries: nat := 2
  const BaseDelay: nat := 1500

  /** How many calls the loop makes: a second one only after a quota error on the first. */
  function Calls(backend: seq<Outcome>): (n: nat)
    requires |backend| >= MaxRetries
  {
    if backend[0].Failure? && IsQuota(backend[0].error) then 2 else 1
  }

  /** The result of `chatWithArchitect` for a key, the code sent and the backend's outcomes. */
  function ArchitectResult(apiKey: string, currentHtml: string, currentCss: string, backend: seq<Outcome>): Option<Response>
    requires |backend| >= MaxRetries
  {
    if apiKey == "" then None else Settle(backend[Calls(backend) - 1], currentHtml, currentCss)
  }

  /**
   * The retry policy: at most `MaxRetries` calls; a second call exactly when
   * the first failed with a quota error; a failure that is not a quota error is
   * never retried and yields `null`.
   */
  lemma RetryPolicy(backend: seq<Outcome>)
    requires |backend| >= MaxRetries
    ensures 1 <= Calls(backend) <= MaxRetries
    ensures Calls(backend) == 2 <==> backend[0].Failure? && IsQuota(backend[0].error)
    ensures backend[0].Failure? && !IsQuota(backend[0].error) ==>
      forall k, h, c :: k != "" ==> ArchitectResult(k, h, c, backend) == None
  {
  }

  /**
   * Error normalisation: whatever the backend does, the result is `null`, the
   * quota response for the code sent, or a parsed reply with its markup
   * post-processed. When the last call threw, or its reply failed to parse,
   * the result is the quota response exactly when that error is a quota error,
   * and `null` otherwise.
   */
  lemma ResultForms(apiKey: string, currentHtml: string, currentCss: string, backend: seq<Outcome>)
    requires |backend| >= MaxRetries
    ensures var r := ArchitectResult(apiKey, currentHtml, currentCss, backend);
      var last := backend[Calls(backend) - 1];
      && (r.None? || r.value == QuotaResponse(currentHtml, currentCss)
          || (last.Reply? && last.parse.Parsed? && r.value == last.parse.data.(html := WithScriptInclude(last.parse.data.html))))
      && (apiKey != "" && last.Failure? ==> (r == Some(QuotaResponse(currentHtml, currentCss)) <==> IsQuota(last.error)))
      && (apiKey != "" && last.Failure? && !IsQuota(last.error) ==> r.None?)
      && (apiKey != "" && last.Reply? && last.text != "" && last.parse.Malformed? ==>
            (r == Some(QuotaResponse(currentHtml, currentCss)) <==> IsQuota(last.parse.error))
            && (!IsQuota(last.parse.error) ==> r.None?))
  {
  }

  /**
   * Two quota errors in a row make both calls and end in the quota response
   * (the single 1.5-second wait between them is `ChatWithArchitect`'s `delays`).
   */
  lemma QuotaTwice(apiKey: string, currentHtml: string, currentCss: string, backend: seq<Outcome>)
    requires |backend| >= MaxRetries && apiKey != ""
    requires backend[0].Failure? && IsQuota(backend[0].error)
    requires backend[1].Failure? && IsQuota(backend[1].error)
    ensures Calls(backend) == 2
    ensures ArchitectResult(apiKey, currentHtml, currentCss, backend) == Some(QuotaResponse(currentHtml, currentCss))
  {
  }

  /** A quota error followed by a reply is recovered: the result is the reply's. */
  lemma QuotaThenReply(apiKey: string, currentHtml: string, currentCss: string, backend: seq<Outcome>)
    requires |backend| >= MaxRetries && apiKey != ""
    requires backend[0].Failure? && IsQuota(backend[0].error) && backend[1].Reply?
    ensures ArchitectResult(apiKey, currentHtml, currentCss, backend)
      == Interpret(backend[1].text, backend[1].parse, currentHtml, currentCss)
  {
  }

  // ---------------------------------------------------------------------
  // The prompt
  // ---------------------------------------------------------------------

  /** How a message appears in the conversation window. */
  function Label(m: ChatMessage): string {
    (if m.role == User then "User" else "Architect") + ": " + m.text
  }

  /** `history.slice(-3)`: the last three messages, or all of them when there are fewer. */
  function Recent(history: seq<ChatMessage>): (r: seq<ChatMessage>)
    ensures |r| == if |history| < 3 then |history| else 3
    ensures r == history[|history| - |r|..]
  {
    if |history| <= 3 then history else history[|history| - 3..]
  }

  function Labels(ms: seq<ChatMessage>): (r: seq<string>)
    ensures |r| == |ms|
    ensures forall i :: 0 <= i < |ms| ==> r[i] == Label(ms[i])
  {
    seq(|ms|, i requires 0 <= i < |ms| => Label(ms[i]))
  }

  /** The conversation section of the prompt. */
  function Window(history: seq<ChatMessage>): string {
    Join(Labels(Recent(history)), "\n")
  }

  /** Messages older than the last three never reach the prompt. */
  lemma WindowIgnoresOlder(older: seq<ChatMessage>, latest: seq<ChatMessage>)
    requires |latest| >= 3
    ensures Window(older + latest) == Window(latest)
  {
    assert (older + latest)[|older + latest| - 3..] == latest[|latest| - 3..];
  }

  /** Each message of the window is labelled by its sender and separated from the next by a newline. */
  lemma WindowOfThree(a: ChatMessage, b: ChatMessage, c: ChatMessage)
    ensures Window([a, b, c]) == Label(a) + "\n" + Label(b) + "\n" + Label(c)
  {
    var ls := Labels([a, b, c]);
    assert ls[1..] == [Label(b), Label(c)];
    assert ls[1..][1..] == [Label(c)];
    assert Join(ls[1..], "\n") == Label(b) + "\n" + Label(c);
    assert Join(ls, "\n") == Label(a) + "\n" + (Label(b) + "\n" + Label(c));
  }

  function OrEmpty(code: string): string {
    if code == "" then "(Empty)" else code
  }

  const ContextHead :=
    "Role: You are an expert AI Full-Stack Architect. You build **MARKET-READY SINGLE PAGE APPLICATIONS (SPA)**.\n"
    + "        \n"
    + "Context:\n"
    + "- Current HTML Code: \n"

  /** The prompt up to the conversation history. */
  function ContextSection(currentHtml: string, currentCss: string, theme: string, arrangement: string): string {
    ContextHead + OrEmpty(currentHtml) + CssSection(currentCss, theme, arrangement)
  }

  const CssHead := "\n- Current CSS Code: \n"

  function CssSection(currentCss: string, theme: string, arrangement: string): string {
    CssHead + OrEmpty(currentCss) + CssTail(theme, arrangement)
  }

  function CssTail(theme: string, arrangement: string): string {
    "\n- User Selected Visual Theme: " + theme
    + "\n- Requested Image Arrangement: " + arrangement
    + "\n\nConversation History:\n"
  }

  const TaskSection :=
    "\n\nTask:\n"
    + "1. Build a **Single Page Application** with multiple <section> blocks.\n"
    + "2. Navigation must use showPage(id) JavaScript function, NOT href=\"page.html\".\n"
    + "3. HTML: Semantic. CSS: Responsive. JS: Functional logic.\n"
    + "4. Auto-source images via loremflickr.com if no user images provided.\n"
    + "5. Provide index.html, style.css, script.js.\n"
    + "6. Provide 3 suggestions."

  /** The architect's prompt. */
  function PromptText(currentHtml: string, currentCss: string, theme: string, arrangement: string, window: string): string {
    ContextSection(currentHtml, currentCss, theme, arrangement) + window + TaskSection
  }

  /** The prompt carries the conversation window. */
  lemma PromptCarriesWindow(currentHtml: string, currentCss: string, theme: string, arrangement: string, window: string)
    ensures Contains(PromptText(currentHtml, currentCss, theme, arrangement, window), window)
  {
    ContainsSelf(window);
    ContainsInfix(ContextSection(currentHtml, currentCss, theme, arrangement), window, TaskSection, window);
  }

  /** The prompt carries the current markup, empty markup shown as `(Empty)`. */
  lemma PromptCarriesHtml(currentHtml: string, currentCss: string, theme: string, arrangement: string, window: string)
    ensures Contains(PromptText(currentHtml, currentCss, theme, arrangement, window), OrEmpty(currentHtml))
  {
    var ctx := ContextSection(currentHtml, currentCss, theme, arrangement);
    ContextCarriesHtml(currentHtml, currentCss, theme, arrangement);
    ContainsPrefix(ctx, window, OrEmpty(currentHtml));
    ContainsPrefix(ctx + window, TaskSection, OrEmpty(currentHtml));
  }

  lemma ContextCarriesHtml(currentHtml: string, currentCss: string, theme: string, arrangement: string)
    ensures Contains(ContextSection(currentHtml, currentCss, theme, arrangement), OrEmpty(currentHtml))
  {
    ContainsSelf(OrEmpty(currentHtml));
    ContainsInfix(ContextHead, OrEmpty(currentHtml), CssSection(currentCss, theme, arrangement), OrEmpty(currentHtml));
  }

  /** The prompt carries the current styles, empty styles shown as `(Empty)`. */
  lemma PromptCarriesCss(currentHtml: string, currentCss: string, theme: string, arrangement: string, window: string)
    ensures Contains(PromptText(currentHtml, currentCss, theme, arrangement, window), OrEmpty(currentCss))
  {
    var ctx := ContextSection(currentHtml, currentCss, theme, arrangement);
    ContextCarriesCss(currentHtml, currentCss, theme, arrangement);
    ContainsPrefix(ctx, window, OrEmpty(currentCss));
    ContainsPrefix(ctx + window, TaskSection, OrEmpty(currentCss));
  }

  lemma ContextCarriesCss(currentHtml: string, currentCss: string, theme: string, arrangement: string)
    ensures Contains(ContextSection(currentHtml, currentCss, theme, arrangement), OrEmpty(currentCss))
  {
    var s := CssSection(currentCss, theme, arrangement);
    CssSectionCarries(currentCss, theme, arrangement);
    ContainsInfix(ContextHead + OrEmpty(currentHtml), s, "", OrEmpty(currentCss));
    assert ContextHead + OrEmpty(currentHtml) + s + "" == ContextHead + OrEmpty(currentHtml) + s;
  }

  lemma CssSectionCarries(currentCss: string, theme: string, arrangement: string)
    ensures Contains(CssSection(currentCss, theme, arrangement), OrEmpty(currentCss))
  {
    ContainsSelf(OrEmpty(currentCss));
    ContainsInfix(CssHead, OrEmpty(currentCss), CssTail(theme, arrangement), OrEmpty(currentCss));
  }

  /** `img.split(',')[1] || img`: the text between the first and second comma, or the whole string when that is empty or there is no comma. */
  function ImagePayload(img: string): (r: string)
    ensures r == img || (r != "" && !Contains(r, ","))
  {
    match IndexOf(img, ",")
    case None => img
    case Some(c) =>
      var rest := img[c + 1..];
      var field := match IndexOf(rest, ",") case None => rest case Some(d) => rest[..d];
      FieldHasNoComma(rest);
      if field == "" then img else field
  }

  /**
   * The payload is the whole string when it has no comma or when the field
   * after its first comma is empty; otherwise it is that field: the non-empty,
   * comma-free text that starts right after the first comma and ends at the
   * next comma or at the end.
   */
  lemma ImagePayloadField(img: string)
    ensures IndexOf(img, ",").None? ==> ImagePayload(img) == img
    ensures IndexOf(img, ",").Some? ==>
      var c := IndexOf(img, ",").value;
      var r := ImagePayload(img);
      if c + 1 == |img| || img[c + 1] == ',' then r == img
      else
        && r != "" && !Contains(r, ",")
        && c + 1 + |r| <= |img| && img[c + 1..c + 1 + |r|] == r
        && (c + 1 + |r| == |img| || img[c + 1 + |r|] == ',')
  {
    if IndexOf(img, ",").Some? {
      FieldBounds(img[IndexOf(img, ",").value + 1..]);
    }
  }

  /** The text before the first comma ends at a comma or at the end, and is empty exactly when `rest` is or starts with one. */
  lemma FieldBounds(rest: string)
    ensures var field := match IndexOf(rest, ",") case None => rest case Some(d) => rest[..d];
      && |field| <= |rest| && rest[..|field|] == field
      && (|field| == |rest| || rest[|field|] == ',')
      && (field == "" <==> rest == "" || rest[0] == ',')
  {
    match IndexOf(rest, ",")
    case None =>
    case Some(d) =>
      assert rest[d..d + 1] == ",";
  }

  /** The text before the first comma holds no comma. */
  lemma FieldHasNoComma(rest: string)
    ensures !Contains(match IndexOf(rest, ",") case None => rest case Some(d) => rest[..d], ",")
  {
    match IndexOf(rest, ",")
    case None =>
    case Some(d) =>
      if Contains(rest[..d], ",") {
        var e := IndexOf(rest[..d], ",").value;
        assert rest[..d][e..e + 1] == rest[e..e + 1];
        assert StartsAt(rest, ",", e);
      }
  }

  /** A string without a comma is sent whole. */
  lemma PayloadWithoutComma(img: string)
    requires !Contains(img, ",")
    ensures ImagePayload(img) == img
  {
  }

  /** A data URL `header,data` sends its data. */
  lemma DataUrlPayload(header: string, data: string)
    requires !Contains(header, ",") && !Contains(data, ",") && data != ""
    ensures ImagePayload(header + "," + data) == data
  {
    var img := header + "," + data;
    assert StartsAt(img, ",", |header|);
    forall j | 0 <= j < |header|
      ensures !StartsAt(img, ",", j)
    {
      if StartsAt(img, ",", j) {
        assert img[j..j + 1] == header[j..j + 1];
        ContainsAt(header, ",", j);
      }
    }
    assert IndexOf(img, ",") == Some(|header|);
    assert img[|header| + 1..] == data;
  }

  /** The parts of one call: the prompt, then every image as inline PNG data, in order. */
  function ContentParts(prompt: string, images: seq<string>): (r: seq<Part>)
    ensures |r| == |images| + 1 && r[0] == TextPart(prompt)
    ensures forall i :: 0 <= i < |images| ==> r[i + 1] == ImagePart("image/png", ImagePayload(images[i]))
  {
    [TextPart(prompt)] + seq(|images|, i requires 0 <= i < |images| => ImagePart("image/png", ImagePayload(images[i])))
  }

  /** The `push` loop that builds the parts. */
  method BuildContentParts(prompt: string, images: seq<string>) returns (parts: seq<Part>)
    ensures parts == ContentParts(prompt, images)
  {
    parts := [TextPart(prompt)];
    if |images| > 0 {
      for i := 0 to |images|
        invariant |parts| == i + 1 && parts[0] == TextPart(prompt)
        invariant forall j :: 0 <= j < i ==> parts[j + 1] == ImagePart("image/png", ImagePayload(images[j]))
      {
        var payload := ImagePayload(images[i]);
        parts := parts + [ImagePart("image/png", payload)];
      }
    }
  }

  // ---------------------------------------------------------------------
  // The calls
  // ---------------------------------------------------------------------

  /**
   * `chatWithArchitect`. `sent` lists the parts of every call made and
   * `delays` every wait, in milliseconds.
   */
  method ChatWithArchitect(
    apiKey: string, history: seq<ChatMessage>, currentHtml: string, currentCss: string,
    newImages: seq<string>, theme: string, arrangement: string, backend: seq<Outcome>)
    returns (result: Option<Response>, sent: seq<seq<Part>>, delays: seq<nat>)
    requires |backend| >= MaxRetries
    ensures result == ArchitectResult(apiKey, currentHtml, currentCss, backend)
    ensures |sent| == if apiKey == "" then 0 else Calls(backend)
    ensures forall k :: 0 <= k < |sent| ==>
      sent[k] == ContentParts(PromptText(currentHtml, currentCss, theme, arrangement, Window(history)), newImages)
    ensures delays == if |sent| == 2 then [BaseDelay] else []
  {
    sent, delays := [], [];
    if apiKey == "" {
      return None, sent, delays;
    }
    var recentHistory := Window(history);
    var promptText := PromptText(currentHtml, currentCss, theme, arrangement, recentHistory);
    var contentParts := BuildContentParts(promptText, newImages);
    result, sent, delays := CallWithRetries(contentParts, currentHtml, currentCss, backend);
  }

  /**
   * The retry loop of `chatWithArchitect` for a key that is set: the same
   * parts on every call, a wait before the second call, and the response
   * settled from the last call made.
   */
  method CallWithRetries(contentParts: seq<Part>, currentHtml: string, currentCss: string, backend: seq<Outcome>)
    returns (result: Option<Response>, sent: seq<seq<Part>>, delays: seq<nat>)
    requires |backend| >= MaxRetries
    ensures result == Settle(backend[Calls(backend) - 1], currentHtml, currentCss)
    ensures |sent| == Calls(backend) && forall k :: 0 <= k < |sent| ==> sent[k] == contentParts
    ensures delays == if |sent| == 2 then [BaseDelay] else []
  {
    sent, delays := [], [];

    var reply: Option<Outcome> := None;
    var thrown: Option<string> := None;
    var attempts: nat := 0;
    ghost var last := backend[0];
    while attempts < MaxRetries
      invariant attempts < MaxRetries && reply.None? && thrown.None?
      invariant |sent| == attempts && forall k :: 0 <= k < |sent| ==> sent[k] == contentParts
      invariant attempts == 0 ==> delays == []
      invariant attempts == 1 ==> delays == [BaseDelay] && backend[0].Failure? && IsQuota(backend[0].error)
    {
      var outcome := backend[|sent|];
      last := outcome;
      sent := sent + [contentParts];
      if outcome.Reply? {
        reply := Some(outcome);
        break;
      }
      attempts := attempts + 1;
      var isQuota := IsQuota(outcome.error);
      if isQuota && attempts < MaxRetries {
        delays := delays + [BaseDelay * attempts];
        continue;
      } else {
        thrown := Some(outcome.error);
        break;
      }
    }

    assert |sent| == Calls(backend) && last == backend[|sent| - 1];
    assert thrown.Some? ==> last == Failure(thrown.value);
    assert thrown.None? ==> reply == Some(last);
    if thrown.Some? {
      result := CatchError(thrown.value, currentHtml, currentCss);
    } else if reply.Some? && reply.value.text != "" {
      result := Interpret(reply.value.text, reply.value.parse, currentHtml, currentCss);
    } else {
      result := None;
    }
    assert result == Settle(last, currentHtml, currentCss);
  }

  /** `generateWebsite`: one user message, no code, no images, automatic theme and arrangement. */
  method GenerateWebsite(apiKey: string, prompt: string, backend: seq<Outcome>)
    returns (result: Option<Response>, sent: seq<seq<Part>>, delays: seq<nat>)
    requires |backend| >= MaxRetries
    ensures result == ArchitectResult(apiKey, "", "", backend)
    ensures forall k :: 0 <= k < |sent| ==>
      sent[k] == [TextPart(PromptText("", "", "Auto", "Auto", "User: " + prompt))]
    ensures |sent| == if apiKey == "" then 0 else Calls(backend)
  {
    var history := [ChatMessage(User, prompt, [])];
    SingleUserWindow(prompt);
    result, sent, delays := ChatWithArchitect(apiKey, history, "", "", [], "Auto", "Auto", backend);
  }

  /** The window of a lone user message is that message, labelled. */
  lemma SingleUserWindow(prompt: string)
    ensures Window([ChatMessage(User, prompt, [])]) == "User: " + prompt
  {
    var m := ChatMessage(User, prompt, []);
    assert Labels(Recent([m])) == [Label(m)];
    assert Label(m) == "User" + ": " + prompt;
  }

  /** A one-shot generation that hits the quota twice hands back the empty code it sent. */
  lemma GenerateWebsiteQuota(apiKey: string, backend: seq<Outcome>)
    requires |backend| >= MaxRetries && apiKey != ""
    requires backend[0].Failure? && IsQuota(backend[0].error)
    requires backend[1].Failure? && IsQuota(backend[1].error)
    ensures ArchitectResult(apiKey, "", "", backend) == Some(Response(QuotaMessage, "", "", "", [], true, Some(60)))
  {
  }

  // ---------------------------------------------------------------------
  // The tutor
  // ---------------------------------------------------------------------

  /** The outcome of the tutor's one call: the reply text, or a thrown error rendered by `toString`. */
  datatype TutorOutcome = Answer(text: string) | Error(error: string)

  const MissingKeyText := "I'm sorry, I cannot answer right now because the API key is missing. Please check your configuration."
  const ThinkingText := "I'm having a little trouble thinking right now. Try asking again!"
  const TrafficText := "\U{1F6D1} **Traffic Limit Reached.** The AI service is busy. Please wait a moment for the quota to reset."
  const FrozenText := "Oops! My brain froze. Please try again in a moment."

  /** The question as the tutor sends it, framed by the step the learner is on. */
  function TutorContents(userMessage: string, context: string): string {
    "User Context: The user is currently on the \"" + context
    + "\" step of a web development tutorial for absolute beginners.\n"
    + "      \n"
    + "      User Question: " + userMessage
  }

  /** `getTutorResponse`. */
  function TutorResponse(apiKey: string, outcome: TutorOutcome): string {
    if apiKey == "" then MissingKeyText
    else
      match outcome
      case Answer(text) => if text == "" then ThinkingText else text
      case Error(error) => if IsQuota(error) then TrafficText else FrozenText
  }

  /**
   * The tutor's answer policy: the missing-key message without a key; a
   * non-empty reply verbatim; the fallback for an empty reply; the traffic
   * message exactly for quota errors and the frozen message for the rest. The
   * answer is never empty.
   */
  lemma TutorPolicy(apiKey: string, outcome: TutorOutcome)
    ensures var r := TutorResponse(apiKey, outcome);
      && r != ""
      && (apiKey == "" ==> r == MissingKeyText)
      && (apiKey != "" && outcome.Answer? && outcome.text != "" ==> r == outcome.text)
      && (apiKey != "" && outcome.Answer? && outcome.text == "" ==> r == ThinkingText)
      && (apiKey != "" && outcome.Error? ==> (r == TrafficText <==> IsQuota(outcome.error)))
      && (apiKey != "" && outcome.Error? && !IsQuota(outcome.error) ==> r == FrozenText)
  {
  }

  /** The tutor and the architect classify a thrown error alike. */
  lemma TutorAgreesWithArchitect(apiKey: string, error: string, currentHtml: string, currentCss: string)
    requires apiKey != ""
    ensures TutorResponse(apiKey, Error(error)) == TrafficText <==> CatchError(error, currentHtml, currentCss).Some?
  {
  }

  /** The question sent carries the learner's message and the step they are on. */
  lemma TutorContentsCarry(userMessage: string, context: string)
    ensures Contains(TutorContents(userMessage, context), userMessage)
    ensures Contains(TutorContents(userMessage, context), context)
  {
    var t := TutorContents(userMessage, context);
    var head := "User Context: The user is currently on the \"";
    var tail := "\" step of a web development tutorial for absolute beginners.\n" + "      \n" + "      User Question: " + userMessage;
    assert t == head + context + tail;
    ContainsSelf(context);
    ContainsInfix(head, context, tail, context);
    ContainsSelf(userMessage);
    ContainsInfix(t[..|t| - |userMessage|], userMessage, "", userMessage);
    assert t[..|t| - |userMessage|] + userMessage + "" == t;
  }
}
