/**
 * Worked scenarios of the builder session, proved from the general
 * definitions.
 */
module Scenarios {
  import opened Wrappers
  import opened Strings
  import opened History
  import opened Preview
  import opened Architect
  import Builder

  /** Text without the letters that start or mark a `<head>`, a `</body>` or an asset reference. */
  predicate Plain(s: string) {
    'h' !in s && 'b' !in s && 'j' !in s
  }

  lemma TokenZero()
    ensures Token(0) == "__USER_IMAGE_0__"
  {
    assert NatToString(0) == "0";
  }

  /** The first image's placeholder is plain text. */
  lemma TokenPlain()
    ensures Plain(Token(0))
  {
    TokenZero();
  }

  /** Plain markup passes the inlining steps unchanged: it has nowhere to put the assets. */
  lemma PlainNotInlined(doc: string, css: string, js: string)
    requires Plain(doc)
    ensures InlineAssets(doc, css, js) == doc
  {
    assert "<head>"[1] == 'h' && StyleHref[0] == 'h';
    assert "</body>"[2] == 'b' && ScriptSrc[12] == 'j';
    MissingChar(doc, "<head>", 'h');
    MissingChar(doc, StyleHref, 'h');
    MissingChar(doc, "</body>", 'b');
    MissingChar(doc, ScriptSrc, 'j');
    InlineUntouched(doc, css, js);
  }

  /**
   * The placeholder scenario, for example the markup
   * `<img src='__USER_IMAGE_0__'>` with the single image `DATA0`: a version
   * whose plain markup holds the first image's placeholder between text without
   * underscores previews with the image's data in place of the placeholder,
   * and nothing else changed.
   */
  lemma PlaceholderScenario(pre: string, post: string, data: string, css: string, js: string)
    requires Plain(pre) && Plain(post)
    requires '_' !in pre && '_' !in post && '_' !in data
    ensures Compose(Snapshot(pre + Token(0) + post, css, js, [data])) == pre + data + post
  {
    var doc := pre + Token(0) + post;
    TokenPlain();
    assert Plain(doc);
    PlainNotInlined(doc, css, js);
    SinglePlaceholder(pre, post, data);
  }

  /**
   * Quota escalation: the first send of a fresh session meets two quota
   * errors in a row. The session keeps its empty history, shows the quota
   * message after the user's, starts the one-minute timer and refuses any
   * further send.
   */
  lemma QuotaEscalation(text: string, apiKey: string, e1: string, e2: string, next: string)
    requires !IsBlank(text) && apiKey != "" && IsQuota(e1) && IsQuota(e2)
    ensures var b := Builder.BeginStep(Builder.Initial.(input := text), None);
      && b.1.Some? && History.Valid(b.1.value.view, b.1.value.cursor)
      && var r := Builder.FinishStep(b.0, b.1.value, ArchitectResult(apiKey, b.1.value.html, b.1.value.css, [Failure(e1), Failure(e2)]));
      && r.history == [Empty] && r.historyIndex == 0
      && r.messages == [ChatMessage(User, text, []), ChatMessage(Model, QuotaMessage, [])]
      && r.cooldownSeconds == 60 && !r.isGenerating
      && Builder.SendRejected(r, next)
  {
    assert text != "";
  }

  /**
   * A first generation that succeeds: the reply's code becomes the second
   * version, and undo brings back the empty first one.
   */
  lemma FirstGeneration(text: string, apiKey: string, reply: string, data: Response)
    requires !IsBlank(text) && apiKey != "" && reply != ""
    requires !data.quotaExceeded && data.html != ""
    requires Contains(data.html, ScriptFile) || !Contains(data.html, "</body>")
    ensures var b := Builder.BeginStep(Builder.Initial.(input := text), None);
      && b.1.Some? && History.Valid(b.1.value.view, b.1.value.cursor)
      && var r := Builder.FinishStep(b.0, b.1.value, ArchitectResult(apiKey, b.1.value.html, b.1.value.css, [Reply(reply, Parsed(data)), Failure("")]));
      && r.history == [Empty, Snapshot(data.html, data.css, data.javascript, [])]
      && r.historyIndex == 1 && r.currentHtml == data.html
      && r.suggestions == data.suggestions
      && Builder.Consistent(r)
      && Builder.UndoStep(r).currentHtml == "" && Builder.UndoStep(r).historyIndex == 0
  {
    Architect.ScriptIncludeUnchanged(data.html);
    assert text != "";
    var b := Builder.BeginStep(Builder.Initial.(input := text), None);
    Builder.FinishBranches(b.0, b.1.value, ArchitectResult(apiKey, b.1.value.html, b.1.value.css, [Reply(reply, Parsed(data)), Failure("")]));
  }

  /**
   * The end-to-end generation scenario: a fresh session sends `build a landing
   * page` and the architect answers with an `<h1>Hi</h1>` page and one
   * suggestion. The history then holds two versions with the cursor on the
   * new one, which is on display, and the suggestion chips are the answer's.
   */
  lemma EndToEnd(apiKey: string, reply: string, data: Response)
    requires apiKey != "" && reply != ""
    requires data == Response(data.message, "<h1>Hi</h1>", "h1{color:red}", "", ["add footer"], false, None)
    ensures var b := Builder.BeginStep(Builder.Initial.(input := "build a landing page"), None);
      && b.1.Some? && History.Valid(b.1.value.view, b.1.value.cursor)
      && var r := Builder.FinishStep(b.0, b.1.value, ArchitectResult(apiKey, b.1.value.html, b.1.value.css, [Reply(reply, Parsed(data)), Failure("")]));
      && |r.history| == 2 && r.historyIndex == 1
      && r.currentHtml == "<h1>Hi</h1>" && r.suggestions == ["add footer"]
  {
    MissingChar(data.html, "</body>", 'b');
    assert !IsBlank("build a landing page") by {
      assert !IsSpace("build a landing page"[0]);
    }
    FirstGeneration("build a landing page", apiKey, reply, data);
  }

  /**
   * The failure-isolation scenario: a fresh session's send fails with an
   * error that is not a quota error. The history and its cursor stay on the
   * empty first version, and the conversation holds exactly the user's message
   * and the apology.
   */
  lemma FailureIsolation(text: string, apiKey: string, error: string)
    requires !IsBlank(text) && apiKey != "" && !IsQuota(error)
    ensures var b := Builder.BeginStep(Builder.Initial.(input := text), None);
      && b.1.Some? && History.Valid(b.1.value.view, b.1.value.cursor)
      && var r := Builder.FinishStep(b.0, b.1.value, ArchitectResult(apiKey, b.1.value.html, b.1.value.css, [Failure(error), Failure("")]));
      && r.history == [Empty] && r.historyIndex == 0 && Builder.Consistent(r)
      && r.messages == [ChatMessage(User, text, []), ChatMessage(Model, Builder.ErrorReply, [])]
      && !r.isGenerating && r.cooldownSeconds == 0
  {
    assert text != "";
  }
}
