/**
 * The coding workshop's preview (pages/CodingWorkshop.tsx): the code comes
 * from the route's state when the builder handed some over, each file falling
 * back to the sample project on its own; the preview inlines the styles in
 * place of the exact stylesheet link and the script in place of the script tag
 * (or before `</body>`).
 */
module Workshop {
  import opened Wrappers
  import opened Strings
  import opened Preview

  /** The code the builder hands over through the route's state; the script may be absent. */
  datatype CustomCode = CustomCode(html: string, css: string, js: Option<string>)

  // ---------------------------------------------------------------------
  // The sample project
  // ---------------------------------------------------------------------

  /** The exact stylesheet link the workshop replaces. */
  const StylesheetLink := "<link rel=\"stylesheet\" href=\"style.css\">"

  /** The sample markup's script tag. */
  const SampleScriptTag := "<script src=\"script.js\"></script>"

  const SampleHead := @"<!DOCTYPE html>
<html lang=""en"">
<head>
    <meta charset=""UTF-8"">
    <meta name=""viewport"" content=""width=device-width, initial-scale=1.0"">
    <title>FitStart</title>
    "

  const SampleBody := @"
</head>
<body>
    <header class=""site-header"">
        <div class=""container"">
            <h1 class=""logo"">FitStart</h1>
        </div>
    </header>

    <main>
        <section class=""workout-section"">
            <button id=""themeToggle"" class=""btn-theme"">Toggle Dark Mode</button>
            <div class=""container grid-layout"">
                <article class=""workout-card"">
                    <img src=""https://loremflickr.com/300/200/pushups,fitness"" alt=""Pushups"" class=""card-image"">
                    <div class=""card-content"">
                        <h2>Pushups</h2>
                        <button class=""btn-log"" onclick=""logWorkout('Pushups')"">Log Set</button>
                    </div>
                </article>
            </div>
        </section>
    </main>
    
    "

  const SampleEnd := @"
</body>
</html>"

  /** The sample markup: the head, the stylesheet link, the body, the script tag and the end. */
  const DefaultHtml := SampleHead + StylesheetLink + SampleBody + SampleScriptTag + SampleEnd

  const DefaultCss := @"/* --- VARIABLES --- */
:root {
    --bg-color: #f0f9ff;
    --text-color: #1e293b;
    --card-bg: white;
}

body.dark-mode {
    --bg-color: #0f172a;
    --text-color: #f1f5f9;
    --card-bg: #1e293b;
}

body {
    background-color: var(--bg-color);
    color: var(--text-color);
    font-family: sans-serif;
    transition: background-color 0.3s ease;
}

.workout-card {
    background: var(--card-bg);
    padding: 1rem;
    border-radius: 8px;
    box-shadow: 0 4px 6px -1px rgba(0,0,0,0.1);
}

.btn-theme {
    margin: 1rem;
    padding: 0.5rem 1rem;
    cursor: pointer;
}"

  const DefaultJs := @"// --- SCRIPT.JS ---
// JavaScript handles the behavior (interactivity)

// 1. Select Elements
const themeBtn = document.getElementById('themeToggle');
const body = document.body;

// 2. Add Event Listener
themeBtn.addEventListener('click', () => {
    // Toggle the class that changes CSS variables
    body.classList.toggle('dark-mode');
    console.log(""Theme toggled!"");
});

// 3. Define Functions
function logWorkout(name) {
    alert(`Great job doing ${name}! Saved to log.`);
}"

  // ---------------------------------------------------------------------
  // The code shown
  // ---------------------------------------------------------------------

  /** `!!customState`: the builder handed code over. */
  predicate IsCustom(state: Option<CustomCode>) {
    state.Some?
  }

  /** `customState?.html || defaultHtml`. */
  function HtmlCode(state: Option<CustomCode>): string {
    if state.Some? && state.value.html != "" then state.value.html else DefaultHtml
  }

  /** `customState?.css || defaultCss`. */
  function CssCode(state: Option<CustomCode>): string {
    if state.Some? && state.value.css != "" then state.value.css else DefaultCss
  }

  /** `customState?.js || defaultJs`. */
  function JsCode(state: Option<CustomCode>): string {
    if state.Some? && state.value.js.Some? && state.value.js.value != "" then state.value.js.value else DefaultJs
  }

  /** Without handed-over code all three files are the sample's. */
  lemma SampleWhenNotCustom(state: Option<CustomCode>)
    requires !IsCustom(state)
    ensures HtmlCode(state) == DefaultHtml && CssCode(state) == DefaultCss && JsCode(state) == DefaultJs
  {
  }

  /**
   * With handed-over code each file falls back to the sample's on its own: an
   * empty or absent file is replaced, a non-empty one is kept, whatever the
   * other two files are.
   */
  lemma EachFileFallsBack(state: Option<CustomCode>)
    requires IsCustom(state)
    ensures state.value.html == "" ==> HtmlCode(state) == DefaultHtml
    ensures state.value.html != "" ==> HtmlCode(state) == state.value.html
    ensures state.value.css == "" ==> CssCode(state) == DefaultCss
    ensures state.value.css != "" ==> CssCode(state) == state.value.css
    ensures state.value.js.GetOr("") == "" ==> JsCode(state) == DefaultJs
    ensures state.value.js.GetOr("") != "" ==> JsCode(state) == state.value.js.value
  {
  }

  /** The markup shown never depends on the handed-over styles or script. */
  lemma FilesIndependent(html: string, css1: string, js1: Option<string>, css2: string, js2: Option<string>)
    ensures HtmlCode(Some(CustomCode(html, css1, js1))) == HtmlCode(Some(CustomCode(html, css2, js2)))
  {
  }

  // ---------------------------------------------------------------------
  // The preview
  // ---------------------------------------------------------------------

  /** The style step of the workshop: only the exact stylesheet link is replaced, and only its first occurrence. */
  function InlineStyles(doc: string, css: string): string {
    ReplaceFirst(doc, StylesheetLink, StyleBlock(css))
  }

  /**
   * With the link present the styles take the place of its first occurrence;
   * without it the document is left as it is, even when it has a `<head>`.
   */
  lemma InlineStylesPlaced(doc: string, css: string)
    ensures !Contains(doc, StylesheetLink) ==> InlineStyles(doc, css) == doc
    ensures Contains(doc, StylesheetLink) ==>
      var k := IndexOf(doc, StylesheetLink).value;
      && InlineStyles(doc, css) == doc[..k] + StyleBlock(css) + doc[k + |StylesheetLink|..]
      && Contains(InlineStyles(doc, css), StyleBlock(css))
  {
  }

  /** The code with its styles inlined. */
  function Styled(state: Option<CustomCode>): string {
    InlineStyles(HtmlCode(state), CssCode(state))
  }

  /** `previewDoc`: the styles inlined, then the script. */
  function PreviewDoc(state: Option<CustomCode>): string {
    JsStep(Styled(state), JsCode(state))
  }

  /** The sample script tag opens with `<script`. */
  lemma SampleTagOpens(x: string, y: string)
    ensures MatchesAt(x + SampleScriptTag + y, |x|, ScriptInclude.open)
  {
    var s := x + SampleScriptTag + y;
    assert s[|x|..|x| + 7] == SampleScriptTag[..7] == "<script";
    assert Lower("<script") == "<script";
  }

  /** Its first `>` is the one after the attribute. */
  lemma SampleTagCloses(x: string, y: string)
    ensures IndexOfFrom(x + SampleScriptTag + y, ">", |x| + 7) == Some(|x| + 23)
  {
    var s := x + SampleScriptTag + y;
    var t := SampleScriptTag;
    var n := |x|;
    assert s[n + 23..n + 24] == t[23..24] == ">";
    forall j | n + 7 <= j < n + 23
      ensures !StartsAt(s, ">", j)
    {
      assert s[j] == t[j - n];
      assert t[j - n] != '>';
      NotStartsAt(s, ">", j);
    }
    IndexOfFromAt(s, ">", n + 7, n + 23);
  }

  /** A piece of `t` that lowering keeps is matched at its place in any text around `t`. */
  lemma MatchesInside(x: string, t: string, y: string, i: nat, w: string)
    requires i + |w| <= |t| && t[i..i + |w|] == w && Lower(w) == w
    ensures MatchesAt(x + t + y, |x| + i, w)
  {
    assert (x + t + y)[|x| + i..|x| + i + |w|] == t[i..i + |w|];
  }

  /** Inside it, `src="script.js"`. */
  lemma SampleTagAttribute(x: string, y: string)
    ensures AttrWithin(x + SampleScriptTag + y, ScriptInclude, |x| + 7, |x| + 23)
  {
    SampleAttrAt(x, y);
  }

  /** The attribute starts right after `<script `. */
  lemma SampleAttrAt(x: string, y: string)
    ensures AttrAt(x + SampleScriptTag + y, ScriptInclude, |x| + 8)
  {
    var p := ScriptInclude;
    assert Lower(p.attr) == p.attr && Lower(p.value) == p.value;
    SampleTagPieces();
    assert x + SampleScriptTag + y == (x + "<script ") + p.attr + "\"" + p.value + "\"" + ("></script>" + y);
    AttrPlaced(x + "<script ", p, '"', '"', "></script>" + y);
  }

  /** The sample tag spelled out around the script pattern's attribute and value. */
  lemma SampleTagPieces()
    ensures SampleScriptTag == "<script " + ScriptInclude.attr + "\"" + ScriptInclude.value + "\"" + "></script>"
  {
  }

  /** An attribute written out with its quotes is found where it is written. */
  lemma AttrPlaced(x: string, p: TagPattern, q1: char, q2: char, y: string)
    requires Lower(p.attr) == p.attr && Lower(p.value) == p.value && IsQuote(q1) && IsQuote(q2)
    ensures AttrAt(x + p.attr + [q1] + p.value + [q2] + y, p, |x|)
  {
    var s := x + p.attr + [q1] + p.value + [q2] + y;
    var n := |x|;
    assert s[n..n + |p.attr|] == p.attr;
    assert s[n + |p.attr|] == q1;
    assert s[n + |p.attr| + 1..n + |p.attr| + 1 + |p.value|] == p.value;
    assert s[n + AttrLength(p) - 1] == q2;
  }

  /** And right after the `>`, the closing `</script>`. */
  lemma SampleTagClosing(x: string, y: string)
    ensures MatchesAt(x + SampleScriptTag + y, |x| + 24, ScriptInclude.closing)
  {
    var s := x + SampleScriptTag + y;
    assert s[|x| + 24..|x| + 33] == SampleScriptTag[24..33] == "</script>";
    assert Lower("</script>") == "</script>";
  }

  /** `<script src="script.js"></script>` is a script tag the script step recognises. */
  lemma SampleScriptTagMatches(x: string, y: string)
    ensures TagAt(x + SampleScriptTag + y, ScriptInclude, |x|)
  {
    SampleTagOpens(x, y);
    SampleTagCloses(x, y);
    SampleTagAttribute(x, y);
    SampleTagClosing(x, y);
  }

  /** Inlining the styles of markup shaped like the sample leaves its script tag in place. */
  lemma StyledSampleShape(h: string, b: string, e: string, css: string) returns (pre: string)
    ensures var doc := h + StylesheetLink + b + SampleScriptTag + e;
      && InlineStyles(doc, css) == pre + SampleScriptTag + e
      && Contains(InlineStyles(doc, css), StyleBlock(css))
  {
    var rest := b + SampleScriptTag + e;
    var front := ReplaceFirstWithin(h, StylesheetLink, rest, StyleBlock(css));
    assert h + StylesheetLink + b + SampleScriptTag + e == h + StylesheetLink + rest;
    pre := front + b;
    assert front + rest == pre + SampleScriptTag + e;
  }

  /** The sample script tag mentions `src="script.js"`. */
  lemma SampleScriptTagMentionsSource(x: string, y: string)
    ensures Contains(x + SampleScriptTag + y, ScriptSrc)
  {
    assert SampleScriptTag == "<script " + ScriptSrc + "></script>";
    assert x + SampleScriptTag + y == (x + "<script ") + ScriptSrc + ("></script>" + y);
    ContainsSelf(ScriptSrc);
    ContainsInfix(x + "<script ", ScriptSrc, "></script>" + y, ScriptSrc);
  }

  /**
   * Markup shaped like the sample (the exact stylesheet link, later the sample
   * script tag) gets both files inlined: the styles in place of the link, the
   * script in place of the tag.
   */
  lemma SampleShapeInlines(h: string, b: string, e: string, css: string, js: string)
    ensures var doc := h + StylesheetLink + b + SampleScriptTag + e;
      && Contains(InlineStyles(doc, css), StyleBlock(css))
      && Contains(JsStep(InlineStyles(doc, css), js), ScriptBlock(js))
  {
    var pre := StyledSampleShape(h, b, e, css);
    var styled := pre + SampleScriptTag + e;
    SampleScriptTagMatches(pre, e);
    assert FindTag(styled, ScriptInclude).Some?;
    SampleScriptTagMentionsSource(pre, e);
    JsInlined(styled, js);
  }

  /** Without handed-over code the preview shows the sample with both files inlined. */
  lemma SamplePreviewInlined()
    ensures Contains(Styled(None), StyleBlock(DefaultCss))
    ensures Contains(PreviewDoc(None), ScriptBlock(DefaultJs))
  {
    SampleShapeInlines(SampleHead, SampleBody, SampleEnd, DefaultCss, DefaultJs);
  }
}
