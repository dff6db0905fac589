/**
 * The builder session of pages/AIBuilder.tsx: its state, the history handlers
 * (`updateCode`, `handleUndo`, `handleRedo`), the cooldown tick, the send
 * handler with its gate and outcome branches, the attachment list, and the
 * download and preview documents.
 *
 * Every handler has a value-level meaning on `State` (the functions ending in
 * `Step`), about which the properties are proved; the class `Session` holds
 * the same fields and its methods update them in place, each promising that
 * the new state is its step applied to the old one.
 *
 * `handleSendMessage` awaits the architect in the middle, and other handlers
 * (undo, redo, ticks) may run meanwhile. It is therefore split in two:
 * `BeginSend` runs up to the call and returns what the handler's closure
 * captured, `FinishSend` runs after it. The closure's `updateCode` sees the
 * history and cursor of the render that started the send, so the commit is
 * made onto that captured view.
 */
module Builder {
  import opened Wrappers
  import opened Strings
  import opened History
  import opened Architect
  import Preview

  // ---------------------------------------------------------------------
  // The state and its invariant
  // ---------------------------------------------------------------------

  datatype State = State(
    messages: seq<ChatMessage>,
    input: string,
    cooldownSeconds: nat,
    selectedImages: seq<string>,
    imageTheme: string,
    imageArrangement: string,
    currentHtml: string,
    currentCss: string,
    currentJs: string,
    history: seq<Snapshot>,
    historyIndex: nat,
    isGenerating: bool,
    suggestions: seq<string>)

  /** The state a session opens with. */
  const Initial := State([], "", 0, [], "Auto", "Auto", "", "", "", [Empty], 0, false, [])

  /** The cursor is in range, the cap holds, and the code on display is the version under the cursor. */
  predicate Consistent(s: State) {
    && History.Valid(s.history, s.historyIndex)
    && s.currentHtml == s.history[s.historyIndex].html
    && s.currentCss == s.history[s.historyIndex].css
    && s.currentJs == s.history[s.historyIndex].js
  }

  lemma InitialConsistent()
    ensures Consistent(Initial) && Initial.history == [Empty]
  {
  }

  /** The state with the code fields and the history put back as in `s`: what is left when only the code changed. */
  function WithCodeOf(r: State, s: State): State {
    r.(history := s.history, historyIndex := s.historyIndex,
       currentHtml := s.currentHtml, currentCss := s.currentCss, currentJs := s.currentJs)
  }

  // ---------------------------------------------------------------------
  // History handlers
  // ---------------------------------------------------------------------

  /**
   * `updateCode` run by a closure that saw history `view` with cursor
   * `cursor`: a redundant commit changes nothing; otherwise the history
   * becomes the commit onto the view and the code on display the new code.
   */
  function CommitStep(s: State, view: seq<Snapshot>, cursor: nat, html: string, css: string, js: string, newImages: seq<string>): (r: State)
    requires History.Valid(view, cursor)
    ensures Consistent(s) ==> Consistent(r)
    ensures WithCodeOf(r, s) == s
    ensures var c := Snapshot(html, css, js, ResolveImages(view[cursor], newImages));
      && (Redundant(view, cursor, c) ==> r == s)
      && (!Redundant(view, cursor, c) ==>
            (r.history, r.historyIndex) == Append(view, cursor, c)
            && r.currentHtml == html && r.currentCss == css && r.currentJs == js)
  {
    var c := Snapshot(html, css, js, ResolveImages(view[cursor], newImages));
    if Redundant(view, cursor, c) then s
    else
      var a := Append(view, cursor, c);
      s.(history := a.0, historyIndex := a.1, currentHtml := html, currentCss := css, currentJs := js)
  }

  /** Show the version at `i`. */
  function ShowEntry(s: State, i: nat): State
    requires i < |s.history|
  {
    s.(historyIndex := i, currentHtml := s.history[i].html, currentCss := s.history[i].css, currentJs := s.history[i].js)
  }

  /** `handleUndo`. */
  function UndoStep(s: State): (r: State)
    requires Consistent(s)
    ensures Consistent(r)
    ensures r.history == s.history && r.historyIndex == History.Undo(s.history, s.historyIndex)
    ensures WithCodeOf(r, s) == s
  {
    if s.historyIndex > 0 then ShowEntry(s, s.historyIndex - 1) else s
  }

  /** `handleRedo`. */
  function RedoStep(s: State): (r: State)
    requires Consistent(s)
    ensures Consistent(r)
    ensures r.history == s.history && r.historyIndex == History.Redo(s.history, s.historyIndex)
    ensures WithCodeOf(r, s) == s
  {
    if s.historyIndex < |s.history| - 1 then ShowEntry(s, s.historyIndex + 1) else s
  }

  /** Undo then redo (from a cursor above the first entry) gives back the very same state. */
  lemma UndoRedoState(s: State)
    requires Consistent(s) && s.historyIndex > 0
    ensures RedoStep(UndoStep(s)) == s
  {
    UndoRedoInverse(s.history, s.historyIndex);
  }

  // ---------------------------------------------------------------------
  // Cooldown
  // ---------------------------------------------------------------------

  /** One second of the quota timer: the counter goes down by one, never below zero. */
  function TickStep(s: State): (r: State)
    ensures r.cooldownSeconds == if s.cooldownSeconds > 0 then s.cooldownSeconds - 1 else 0
    ensures r.(cooldownSeconds := s.cooldownSeconds) == s
  {
    s.(cooldownSeconds := if s.cooldownSeconds > 0 then s.cooldownSeconds - 1 else 0)
  }

  /** `n` seconds of the timer. */
  function Ticks(s: State, n: nat): State
    decreases n
  {
    if n == 0 then s else Ticks(TickStep(s), n - 1)
  }

  /** After `n` seconds the counter is down by `n`, or at zero; nothing else has moved. */
  lemma {:induction false} TicksCountDown(s: State, n: nat)
    ensures Ticks(s, n).cooldownSeconds == if n <= s.cooldownSeconds then s.cooldownSeconds - n else 0
    ensures Ticks(s, n).(cooldownSeconds := s.cooldownSeconds) == s
    decreases n
  {
    if n > 0 {
      TicksCountDown(TickStep(s), n - 1);
    }
  }

  // ---------------------------------------------------------------------
  // Sending
  // ---------------------------------------------------------------------

  /** `textOverride || input`. */
  function TextToSend(textOverride: Option<string>, input: string): string {
    if textOverride.Some? && textOverride.value != "" then textOverride.value else input
  }

  /** The send gate: nothing to send, a generation in flight, or the quota timer running. */
  predicate SendRejected(s: State, text: string) {
    (IsBlank(text) && |s.selectedImages| == 0) || s.isGenerating || s.cooldownSeconds > 0
  }

  /** The user's message: the text, or for a text-less send a note of how many images it carries. */
  function UserMessage(text: string, images: seq<string>): ChatMessage {
    ChatMessage(User, if text != "" then text else if |images| > 0 then "Attached " + NatToString(|images|) + " image(s)." else "", images)
  }

  /** What the send handler's closure holds while the architect works. */
  datatype Pending = Pending(
    view: seq<Snapshot>,
    cursor: nat,
    images: seq<string>,
    request: seq<ChatMessage>,
    html: string,
    css: string,
    theme: string,
    arrangement: string)

  /**
   * The part of `handleSendMessage` before the call: a rejected send changes
   * nothing and calls nothing; an accepted one appends the user's message,
   * clears the input, the attachments and the suggestions, and marks the
   * session as generating.
   */
  function BeginStep(s: State, textOverride: Option<string>): (r: (State, Option<Pending>))
    ensures SendRejected(s, TextToSend(textOverride, s.input)) ==> r == (s, None)
    ensures !SendRejected(s, TextToSend(textOverride, s.input)) ==>
      var msg := UserMessage(TextToSend(textOverride, s.input), s.selectedImages);
      && r.1 == Some(Pending(s.history, s.historyIndex, s.selectedImages, s.messages + [msg],
                             s.currentHtml, s.currentCss, s.imageTheme, s.imageArrangement))
      && r.0 == s.(messages := s.messages + [msg], input := "", selectedImages := [], suggestions := [], isGenerating := true)
  {
    var text := TextToSend(textOverride, s.input);
    if SendRejected(s, text) then (s, None)
    else
      var msg := UserMessage(text, s.selectedImages);
      (s.(messages := s.messages + [msg], input := "", selectedImages := [], suggestions := [], isGenerating := true),
       Some(Pending(s.history, s.historyIndex, s.selectedImages, s.messages + [msg],
                    s.currentHtml, s.currentCss, s.imageTheme, s.imageArrangement)))
  }

  /** `result.retryAfterSeconds || 60`. */
  function CooldownAfter(r: Response): nat {
    match r.retryAfterSeconds
    case Some(n) => if n > 0 then n else 60
    case None => 60
  }

  const ErrorReply := "Sorry, I encountered an error while building. Please try again."

  /** The model's message: the response's own, or the fixed apology for `null`. */
  function ReplyMessage(result: Option<Response>): ChatMessage {
    match result
    case Some(r) => ChatMessage(Model, r.message, [])
    case None => ChatMessage(Model, ErrorReply, [])
  }

  /**
   * The part of `handleSendMessage` after the call: a quota response starts
   * the timer, any other response is committed (with the images that were
   * sent) and its suggestions shown, `null` changes no code; then the model's
   * message is appended and generation ends.
   */
  function FinishStep(s: State, p: Pending, result: Option<Response>): State
    requires History.Valid(p.view, p.cursor)
  {
    var s1 :=
      match result
      case None => s
      case Some(r) =>
        if r.quotaExceeded then s.(cooldownSeconds := CooldownAfter(r))
        else CommitStep(s, p.view, p.cursor, r.html, r.css, r.javascript, p.images).(suggestions := r.suggestions);
    s1.(messages := s1.messages + [ReplyMessage(result)], isGenerating := false)
  }

  /**
   * The outcome branches: exactly one model message is appended and
   * generation ends; the history is untouched by `null` and by a quota
   * response, which starts the timer instead; any other response is
   * committed onto the captured view.
   */
  lemma FinishBranches(s: State, p: Pending, result: Option<Response>)
    requires Consistent(s) && History.Valid(p.view, p.cursor)
    ensures var r := FinishStep(s, p, result);
      && Consistent(r)
      && r.messages == s.messages + [ReplyMessage(result)]
      && !r.isGenerating
      && r.input == s.input && r.selectedImages == s.selectedImages
      && (result.None? ==> r == s.(messages := r.messages, isGenerating := false))
      && (result.Some? && result.value.quotaExceeded ==>
            r == s.(messages := r.messages, isGenerating := false, cooldownSeconds := CooldownAfter(result.value))
            && r.cooldownSeconds > 0)
      && (result.Some? && !result.value.quotaExceeded ==>
            r.suggestions == result.value.suggestions && r.cooldownSeconds == s.cooldownSeconds
            && var c := Snapshot(result.value.html, result.value.css, result.value.javascript,
                                 ResolveImages(p.view[p.cursor], p.images));
               (r.history, r.historyIndex) == (if Redundant(p.view, p.cursor, c) then (s.history, s.historyIndex) else Append(p.view, p.cursor, c)))
  {
  }

  /** A send that passes the gate never appends an empty user message. */
  lemma UserMessageNonEmpty(s: State, textOverride: Option<string>)
    requires !SendRejected(s, TextToSend(textOverride, s.input))
    ensures UserMessage(TextToSend(textOverride, s.input), s.selectedImages).text != ""
  {
    var text := TextToSend(textOverride, s.input);
    if text == "" {
      assert IsBlank(text);
    }
  }

  /**
   * A whole accepted send: the user's message and then the model's are
   * appended, in that order, and the session ends idle and consistent. When
   * nothing else ran during the call, a successful response is committed
   * onto the history the send started from.
   */
  lemma SendRoundTrip(s: State, textOverride: Option<string>, result: Option<Response>)
    requires Consistent(s) && !SendRejected(s, TextToSend(textOverride, s.input))
    ensures var b := BeginStep(s, textOverride);
      b.1.Some? && History.Valid(b.1.value.view, b.1.value.cursor)
      && var r := FinishStep(b.0, b.1.value, result);
      && Consistent(r)
      && r.messages == s.messages + [UserMessage(TextToSend(textOverride, s.input), s.selectedImages), ReplyMessage(result)]
      && !r.isGenerating && r.input == "" && r.selectedImages == []
      && (result.None? || result.value.quotaExceeded ==> r.history == s.history && r.historyIndex == s.historyIndex)
  {
    var b := BeginStep(s, textOverride);
    FinishBranches(b.0, b.1.value, result);
  }

  /** After a quota response every send is refused until the timer has run out. */
  lemma QuotaLocksSending(s: State, p: Pending, r: Response, text: string, n: nat)
    requires Consistent(s) && History.Valid(p.view, p.cursor) && r.quotaExceeded
    requires n < CooldownAfter(r)
    ensures SendRejected(Ticks(FinishStep(s, p, Some(r)), n), text)
  {
    TicksCountDown(FinishStep(s, p, Some(r)), n);
  }

  /** Once the timer has run out and nothing is in flight, a send with text is accepted again. */
  lemma CooldownReopens(s: State, text: string)
    requires !s.isGenerating && !IsBlank(text)
    ensures !SendRejected(Ticks(s, s.cooldownSeconds), text)
  {
    TicksCountDown(s, s.cooldownSeconds);
  }

  /**
   * The commit of a send ignores any undo or redo made while the call was in
   * flight: the history it leaves is the same as if they had not happened.
   */
  lemma CommitIgnoresInterimUndo(s: State, p: Pending, r: Response)
    requires Consistent(s) && History.Valid(p.view, p.cursor) && !r.quotaExceeded
    requires !Redundant(p.view, p.cursor, Snapshot(r.html, r.css, r.javascript, ResolveImages(p.view[p.cursor], p.images)))
    ensures FinishStep(UndoStep(s), p, Some(r)).history == FinishStep(s, p, Some(r)).history
    ensures FinishStep(UndoStep(s), p, Some(r)).historyIndex == FinishStep(s, p, Some(r)).historyIndex
  {
  }

  // ---------------------------------------------------------------------
  // Attachments
  // ---------------------------------------------------------------------

  /** `prev.filter((_, i) => i !== index)`. */
  function RemoveAt(images: seq<string>, index: nat): (r: seq<string>)
    ensures index < |images| ==>
      && |r| == |images| - 1
      && (forall j :: 0 <= j < index ==> r[j] == images[j])
      && (forall j :: index <= j < |r| ==> r[j] == images[j + 1])
    ensures index >= |images| ==> r == images
  {
    if index < |images| then images[..index] + images[index + 1..] else images
  }

  // ---------------------------------------------------------------------
  // The session
  // ---------------------------------------------------------------------

  class Session {
    var messages: seq<ChatMessage>
    var input: string
    var cooldownSeconds: nat
    var selectedImages: seq<string>
    var imageTheme: string
    var imageArrangement: string
    var currentHtml: string
    var currentCss: string
    var currentJs: string
    var history: seq<Snapshot>
    var historyIndex: nat
    var isGenerating: bool
    var suggestions: seq<string>

    /** The session's fields as a value. */
    function St(): State
      reads this
    {
      State(messages, input, cooldownSeconds, selectedImages, imageTheme, imageArrangement,
            currentHtml, currentCss, currentJs, history, historyIndex, isGenerating, suggestions)
    }

    predicate Valid()
      reads this
    {
      Consistent(St())
    }

    constructor ()
      ensures Valid() && St() == Initial
    {
      messages, input, cooldownSeconds := [], "", 0;
      selectedImages, imageTheme, imageArrangement := [], "Auto", "Auto";
      currentHtml, currentCss, currentJs := "", "", "";
      history, historyIndex := [Empty], 0;
      isGenerating, suggestions := false, [];
    }

    /** `updateCode` of a closure that saw history `view` and cursor `cursor`: slice, push, shift. */
    method UpdateCode(view: seq<Snapshot>, cursor: nat, newHtml: string, newCss: string, newJs: string, newImages: seq<string>)
      requires Valid() && History.Valid(view, cursor)
      modifies this
      ensures Valid()
      ensures St() == CommitStep(old(St()), view, cursor, newHtml, newCss, newJs, newImages)
    {
      ghost var target := CommitStep(St(), view, cursor, newHtml, newCss, newJs, newImages);
      var activeImages := if |newImages| > 0 then newImages else view[cursor].images;
      if view[cursor] == Snapshot(newHtml, newCss, newJs, activeImages) {
        return;
      }
      var newHistory, newIndex := History.Push(view, cursor, Snapshot(newHtml, newCss, newJs, activeImages));
      assert target == St().(history := newHistory, historyIndex := newIndex,
                             currentHtml := newHtml, currentCss := newCss, currentJs := newJs);
      history, historyIndex := newHistory, newIndex;
      currentHtml, currentCss, currentJs := newHtml, newCss, newJs;
    }

    method Undo()
      requires Valid()
      modifies this
      ensures Valid() && St() == UndoStep(old(St()))
    {
      if historyIndex > 0 {
        var newIndex := historyIndex - 1;
        historyIndex := newIndex;
        currentHtml, currentCss, currentJs := history[newIndex].html, history[newIndex].css, history[newIndex].js;
      }
    }

    method Redo()
      requires Valid()
      modifies this
      ensures Valid() && St() == RedoStep(old(St()))
    {
      if historyIndex < |history| - 1 {
        var newIndex := historyIndex + 1;
        historyIndex := newIndex;
        currentHtml, currentCss, currentJs := history[newIndex].html, history[newIndex].css, history[newIndex].js;
      }
    }

    /** One firing of the one-second interval. */
    method Tick()
      modifies this
      ensures St() == TickStep(old(St()))
    {
      cooldownSeconds := if cooldownSeconds - 1 > 0 then cooldownSeconds - 1 else 0;
    }

    /** The message box's `onChange`: typing changes only the input. */
    method SetInput(text: string)
      modifies this
      ensures St() == old(St()).(input := text)
    {
      input := text;
    }

    /** Images loaded from the file picker are added after those already attached. */
    method AttachImages(loaded: seq<string>)
      modifies this
      ensures St() == old(St()).(selectedImages := old(selectedImages) + loaded)
    {
      selectedImages := selectedImages + loaded;
    }

    /** `removeImage`. */
    method RemoveImage(index: nat)
      modifies this
      ensures St() == old(St()).(selectedImages := RemoveAt(old(selectedImages), index))
    {
      selectedImages := RemoveAt(selectedImages, index);
    }

    /** `handleSendMessage` up to the architect call. */
    method BeginSend(textOverride: Option<string>) returns (pending: Option<Pending>)
      requires Valid()
      modifies this
      ensures Valid()
      ensures (St(), pending) == BeginStep(old(St()), textOverride)
      ensures pending.Some? ==> History.Valid(pending.value.view, pending.value.cursor)
    {
      var textToSend := if textOverride.Some? && textOverride.value != "" then textOverride.value else input;
      if (IsBlank(textToSend) && |selectedImages| == 0) || isGenerating || cooldownSeconds > 0 {
        return None;
      }
      var imagesToSend := selectedImages;
      var newUserMsg := UserMessage(textToSend, imagesToSend);
      pending := Some(Pending(history, historyIndex, imagesToSend, messages + [newUserMsg],
                             currentHtml, currentCss, imageTheme, imageArrangement));
      messages := messages + [newUserMsg];
      input := "";
      selectedImages := [];
      suggestions := [];
      isGenerating := true;
    }

    /** `handleSendMessage` after the architect call. */
    method FinishSend(pending: Pending, result: Option<Response>)
      requires Valid() && History.Valid(pending.view, pending.cursor)
      modifies this
      ensures Valid()
      ensures St() == FinishStep(old(St()), pending, result)
    {
      FinishBranches(St(), pending, result);
      if result.Some? {
        var r := result.value;
        if r.quotaExceeded {
          cooldownSeconds := CooldownAfter(r);
        } else {
          UpdateCode(pending.view, pending.cursor, r.html, r.css, r.javascript, pending.images);
          suggestions := r.suggestions;
        }
        messages := messages + [ChatMessage(Model, r.message, [])];
      } else {
        messages := messages + [ChatMessage(Model, ErrorReply, [])];
      }
      isGenerating := false;
    }

    /**
     * A send with nothing happening during the call: `backend` is what the
     * model service does; `sent` and `delays` are the calls and waits made.
     */
    method SendMessage(textOverride: Option<string>, apiKey: string, backend: seq<Outcome>)
      returns (sent: seq<seq<Part>>, delays: seq<nat>)
      requires Valid() && |backend| >= MaxRetries
      modifies this
      ensures Valid()
      ensures var b := BeginStep(old(St()), textOverride);
        && (b.1.None? ==> St() == old(St()) && sent == [] && delays == [])
        && (b.1.Some? ==>
              History.Valid(b.1.value.view, b.1.value.cursor)
              && St() == FinishStep(b.0, b.1.value, ArchitectResult(apiKey, b.1.value.html, b.1.value.css, backend))
              && |sent| == (if apiKey == "" then 0 else Calls(backend))
              && (forall k :: 0 <= k < |sent| ==>
                    sent[k] == ContentParts(PromptText(b.1.value.html, b.1.value.css, b.1.value.theme,
                                                       b.1.value.arrangement, Window(b.1.value.request)),
                                            b.1.value.images))
              && delays == (if |sent| == 2 then [BaseDelay] else []))
    {
      var pending := BeginSend(textOverride);
      if pending.None? {
        return [], [];
      }
      var p := pending.value;
      var result;
      result, sent, delays := ChatWithArchitect(apiKey, p.request, p.html, p.css, p.images, p.theme, p.arrangement, backend);
      FinishSend(p, result);
    }

    /** `handleDownload` without the file saving: the three files, or nothing for empty markup. */
    method Download() returns (files: Option<(string, string, string)>)
      requires Valid()
      ensures currentHtml == "" ==> files.None?
      ensures currentHtml != "" ==>
        files == Some((Preview.SubstituteImages(currentHtml, history[historyIndex].images), currentCss, currentJs))
    {
      if currentHtml == "" {
        return None;
      }
      var finalHtml := Preview.ResolvePlaceholders(currentHtml, history[historyIndex].images);
      files := Some((finalHtml, currentCss, currentJs));
    }

    /** `getPreviewDoc`: the document the preview frame shows. */
    method PreviewDoc() returns (doc: string)
      requires Valid()
      ensures doc == Preview.Compose(history[historyIndex])
    {
      if currentHtml == "" {
        return "";
      }
      doc := currentHtml;
      if !Contains(doc, Preview.ViewportName) {
        doc := ReplaceFirst(doc, "<head>", "<head>" + Preview.ViewportMeta);
      }
      if Contains(doc, Preview.StyleHref) {
        doc := Preview.ReplaceTag(doc, Preview.StyleLink, Preview.StyleBlock(currentCss));
      } else {
        doc := ReplaceFirst(doc, "<head>", "<head>" + Preview.StyleBlock(currentCss));
      }
      if Contains(doc, Preview.ScriptSrc) {
        doc := Preview.ReplaceTag(doc, Preview.ScriptInclude, Preview.ScriptBlock(currentJs));
      } else {
        doc := ReplaceFirst(doc, "</body>", Preview.ScriptBlock(currentJs) + "</body>");
      }
      doc := Preview.ResolvePlaceholders(doc, history[historyIndex].images);
    }
  }
}
