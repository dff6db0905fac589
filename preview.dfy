/**
 * The preview composer of the builder (`getPreviewDoc` in pages/AIBuilder.tsx)
 * and the pieces it shares with the download (`handleDownload`) and with the
 * coding workshop (pages/CodingWorkshop.tsx): the image placeholder protocol,
 * the viewport, style and script steps, and the "first matching tag"
 * replacement that stands for the two regular expressions involved.
 */
module Preview {
  import opened Wrappers
  import opened Strings
  import History

  // ---------------------------------------------------------------------
  // First matching tag
  // ---------------------------------------------------------------------

  /**
   * A tag the composer looks for: case-insensitively, `open`, then anything but
   * `>`, containing `attr` followed by a quoted `value` (either quote
   * character), up to the first `>`, which must be followed by `closing`.
   * `<link[^>]*href=["']style\.css["'][^>]*>` and
   * `<script[^>]*src=["']script\.js["'][^>]*><\/script>` with the `i` flag are
   * the two instances.
   */
  datatype TagPattern = TagPattern(open: string, attr: string, value: string, closing: string)

  const StyleLink := TagPattern("<link", "href=", "style.css", "")
  const ScriptInclude := TagPattern("<script", "src=", "script.js", "</script>")

  predicate IsQuote(c: char) {
    c == '"' || c == '\''
  }

  /** Equal to `lowered` once ASCII letters are lowered (the regular expression's `i` flag). */
  predicate MatchesAt(s: string, k: nat, lowered: string) {
    k + |lowered| <= |s| && Lower(s[k..k + |lowered|]) == lowered
  }

  function AttrLength(p: TagPattern): nat {
    |p.attr| + |p.value| + 2
  }

  /** `attr`, a quote, `value`, a quote, starting at `k`. */
  predicate AttrAt(s: string, p: TagPattern, k: nat) {
    && k + AttrLength(p) <= |s|
    && MatchesAt(s, k, p.attr)
    && IsQuote(s[k + |p.attr|])
    && MatchesAt(s, k + |p.attr| + 1, p.value)
    && IsQuote(s[k + AttrLength(p) - 1])
  }

  /** The attribute occurs somewhere inside `s[lo..hi]`. */
  predicate AttrWithin(s: string, p: TagPattern, lo: nat, hi: nat)
    decreases hi - lo
  {
    lo + AttrLength(p) <= hi && (AttrAt(s, p, lo) || AttrWithin(s, p, lo + 1, hi))
  }

  /** A whole matching tag starts at `a`. */
  predicate TagAt(s: string, p: TagPattern, a: nat) {
    && MatchesAt(s, a, p.open)
    && match IndexOfFrom(s, ">", a + |p.open|)
       case None => false
       case Some(close) =>
         AttrWithin(s, p, a + |p.open|, close) && MatchesAt(s, close + 1, p.closing)
  }

  /** Where the tag starting at `a` ends (one past its last character). */
  function TagEnd(s: string, p: TagPattern, a: nat): (e: nat)
    requires TagAt(s, p, a)
    ensures a < e <= |s|
  {
    IndexOfFrom(s, ">", a + |p.open|).value + 1 + |p.closing|
  }

  /** The leftmost matching tag at or after `from`, as the regular expression finds it. */
  function FindTagFrom(s: string, p: TagPattern, from: nat): (r: Option<nat>)
    decreases |s| - from
    ensures r.Some? ==> from <= r.value && TagAt(s, p, r.value)
    ensures r.Some? ==> forall b :: from <= b < r.value ==> !TagAt(s, p, b)
    ensures r.None? ==> forall b :: from <= b ==> !TagAt(s, p, b)
  {
    if from + |p.open| > |s| then None
    else if TagAt(s, p, from) then Some(from)
    else FindTagFrom(s, p, from + 1)
  }

  function FindTag(s: string, p: TagPattern): Option<nat> {
    FindTagFrom(s, p, 0)
  }

  /** `s.replace(tagRegex, rep)`: the leftmost matching tag is replaced by `rep`. */
  function ReplaceTag(s: string, p: TagPattern, rep: string): (r: string)
    ensures FindTag(s, p).None? ==> r == s
    ensures FindTag(s, p).Some? ==>
      var a := FindTag(s, p).value;
      r == s[..a] + rep + s[TagEnd(s, p, a)..] && Contains(r, rep)
  {
    match FindTag(s, p)
    case None => s
    case Some(a) =>
      ContainsSelf(rep);
      ContainsInfix(s[..a], rep, s[TagEnd(s, p, a)..], rep);
      s[..a] + rep + s[TagEnd(s, p, a)..]
  }

  // ---------------------------------------------------------------------
  // Inlining styles and behaviour
  // ---------------------------------------------------------------------

  const ViewportName := "name=\"viewport\""
  const ViewportContent := " content=\"width=device-width, initial-scale=1.0\">"
  const ViewportMeta := "<meta " + ViewportName + ViewportContent
  const StyleHref := "href=\"style.css\""
  const ScriptSrc := "src=\"script.js\""

  function StyleBlock(css: string): string {
    "<style>" + css + "</style>"
  }

  function ScriptBlock(js: string): string {
    "<script>" + js + "</script>"
  }

  /** The viewport step: a document without a viewport directive gets one right after its first `<head>`. */
  function ViewportStep(doc: string): (r: string)
    ensures Contains(doc, ViewportName) ==> r == doc
    ensures !Contains(doc, ViewportName) ==> r == ReplaceFirst(doc, "<head>", "<head>" + ViewportMeta)
  {
    if !Contains(doc, ViewportName) then ReplaceFirst(doc, "<head>", "<head>" + ViewportMeta) else doc
  }

  /** After the viewport step the directive is present exactly when it was, or when there was a `<head>` to put it in. */
  lemma ViewportEnsured(doc: string)
    ensures Contains(ViewportStep(doc), ViewportName) <==> Contains(doc, ViewportName) || Contains(doc, "<head>")
  {
    if !Contains(doc, ViewportName) && Contains(doc, "<head>") {
      assert Contains(ViewportStep(doc), "<head>" + ViewportMeta);
      MetaCarriesName();
      ContainsTransitive(ViewportStep(doc), "<head>" + ViewportMeta, ViewportName);
    }
  }

  /** The inserted text names the viewport. */
  lemma MetaCarriesName()
    ensures Contains("<head>" + ViewportMeta, ViewportName)
  {
    var w := "<head>" + ViewportMeta;
    assert w[12..12 + |ViewportName|] == ViewportName;
    ContainsAt(w, ViewportName, 12);
  }

  /**
   * The style step of the builder: when the document mentions
   * `href="style.css"` the link tag is replaced by an inline style block,
   * otherwise the block goes right after the first `<head>`.
   */
  function CssStep(doc: string, css: string): (r: string)
    ensures Contains(doc, StyleHref) ==> r == ReplaceTag(doc, StyleLink, StyleBlock(css))
    ensures !Contains(doc, StyleHref) ==> r == ReplaceFirst(doc, "<head>", "<head>" + StyleBlock(css))
  {
    if Contains(doc, StyleHref) then ReplaceTag(doc, StyleLink, StyleBlock(css))
    else ReplaceFirst(doc, "<head>", "<head>" + StyleBlock(css))
  }

  /**
   * When the step finds a place for the styles (the link tag when
   * `href="style.css"` is mentioned, `<head>` otherwise) they end up inline;
   * when it finds none the document is unchanged.
   */
  lemma CssInlined(doc: string, css: string)
    ensures var placed := if Contains(doc, StyleHref) then FindTag(doc, StyleLink).Some? else Contains(doc, "<head>");
      && (placed ==> Contains(CssStep(doc, css), StyleBlock(css)))
      && (!placed ==> CssStep(doc, css) == doc)
  {
    if !Contains(doc, StyleHref) && Contains(doc, "<head>") {
      var k := IndexOf(doc, "<head>").value;
      assert CssStep(doc, css) == doc[..k] + "<head>" + StyleBlock(css) + doc[k + 6..];
      ContainsSelf(StyleBlock(css));
      ContainsInfix(doc[..k] + "<head>", StyleBlock(css), doc[k + 6..], StyleBlock(css));
    }
  }

  /**
   * The script step, shared by the builder and the workshop: when the document
   * mentions `src="script.js"` the script tag is replaced by an inline script,
   * otherwise the inline script goes right before the first `</body>`.
   */
  function JsStep(doc: string, js: string): (r: string)
    ensures Contains(doc, ScriptSrc) ==> r == ReplaceTag(doc, ScriptInclude, ScriptBlock(js))
    ensures !Contains(doc, ScriptSrc) ==> r == ReplaceFirst(doc, "</body>", ScriptBlock(js) + "</body>")
  {
    if Contains(doc, ScriptSrc) then ReplaceTag(doc, ScriptInclude, ScriptBlock(js))
    else ReplaceFirst(doc, "</body>", ScriptBlock(js) + "</body>")
  }

  /** When the step finds a place for the script it ends up inline; otherwise nothing changes. */
  lemma JsInlined(doc: string, js: string)
    ensures var placed := if Contains(doc, ScriptSrc) then FindTag(doc, ScriptInclude).Some? else Contains(doc, "</body>");
      && (placed ==> Contains(JsStep(doc, js), ScriptBlock(js)))
      && (!placed ==> JsStep(doc, js) == doc)
  {
    var r := JsStep(doc, js);
    if !Contains(doc, ScriptSrc) && Contains(doc, "</body>") {
      assert StartsAt(ScriptBlock(js) + "</body>", ScriptBlock(js), 0);
      ContainsAt(ScriptBlock(js) + "</body>", ScriptBlock(js), 0);
      ContainsTransitive(r, ScriptBlock(js) + "</body>", ScriptBlock(js));
    }
  }

  /** The three inlining steps of `getPreviewDoc`, in order. */
  function InlineAssets(html: string, css: string, js: string): string {
    JsStep(CssStep(ViewportStep(html), css), js)
  }

  // ---------------------------------------------------------------------
  // Image placeholders
  // ---------------------------------------------------------------------

  /** `__USER_IMAGE_<idx>__`: the placeholder for the image at position `idx`. */
  function Token(idx: nat): string {
    "__USER_IMAGE_" + NatToString(idx) + "__"
  }

  /** The unindexed placeholder that the first image also satisfies. */
  const LegacyToken := "__USER_IMAGE__"

  /** One turn of the `forEach`: replace every token of image `idx`, and for the first image the unindexed token too. */
  function SubstituteOne(doc: string, images: seq<string>, idx: nat): string
    requires idx < |images|
  {
    var d := ReplaceAll(doc, Token(idx), images[idx]);
    if idx == 0 then ReplaceAll(d, LegacyToken, images[0]) else d
  }

  /** The document after the first `n` turns of the `forEach`. */
  function SubstituteFirst(doc: string, images: seq<string>, n: nat): string
    requires n <= |images|
  {
    if n == 0 then doc else SubstituteOne(SubstituteFirst(doc, images, n - 1), images, n - 1)
  }

  /** Placeholder resolution, shared by the preview and the download. */
  function SubstituteImages(doc: string, images: seq<string>): string {
    SubstituteFirst(doc, images, |images|)
  }

  /** The placeholder loop of `getPreviewDoc` and `handleDownload`. */
  method ResolvePlaceholders(doc: string, images: seq<string>) returns (r: string)
    ensures r == SubstituteImages(doc, images)
  {
    r := doc;
    if |images| > 0 {
      var idx := 0;
      while idx < |images|
        invariant idx <= |images|
        invariant r == SubstituteFirst(doc, images, idx)
      {
        r := ReplaceAll(r, Token(idx), images[idx]);
        if idx == 0 {
          r := ReplaceAll(r, LegacyToken, images[0]);
        }
        idx := idx + 1;
      }
    }
  }

  /**
   * A document holding no placeholder of an attached image (and, when there is
   * a first image, no unindexed placeholder) is left as it is: placeholders
   * with no corresponding image stay unresolved.
   */
  lemma {:induction false} SubstituteFirstUntouched(doc: string, images: seq<string>, n: nat)
    requires n <= |images|
    requires forall i :: 0 <= i < n ==> !Contains(doc, Token(i))
    requires n > 0 ==> !Contains(doc, LegacyToken)
    ensures SubstituteFirst(doc, images, n) == doc
  {
    if n > 0 {
      SubstituteFirstUntouched(doc, images, n - 1);
      assert ReplaceAll(doc, Token(n - 1), images[n - 1]) == doc;
    }
  }

  /**
   * A single image whose placeholder stands alone between text without
   * underscores is resolved: the placeholder becomes the image's data and
   * nothing else changes.
   */
  lemma SinglePlaceholder(pre: string, post: string, data: string)
    requires '_' !in pre && '_' !in post && '_' !in data
    ensures SubstituteImages(pre + Token(0) + post, [data]) == pre + data + post
  {
    var t := Token(0);
    var doc := pre + t + post;
    assert t[0] == '_';
    assert doc[|pre|..|pre| + |t|] == t;
    forall j | 0 <= j < |pre|
      ensures !StartsAt(doc, t, j)
    {
      assert doc[j] == pre[j];
      NotStartsAt(doc, t, j);
    }
    assert StartsAt(doc, t, |pre|);
    assert IndexOf(doc, t) == Some(|pre|);
    assert doc[..|pre|] == pre && doc[|pre| + |t|..] == post;
    MissingChar(post, t, '_');
    assert ReplaceAll(post, t, data) == post;
    assert ReplaceAll(doc, t, data) == pre + data + post;
    var once := pre + data + post;
    assert '_' !in once;
    assert LegacyToken[0] == '_';
    MissingChar(once, LegacyToken, '_');
    assert SubstituteFirst(doc, [data], 0) == doc;
  }

  lemma SubstituteUntouched(doc: string, images: seq<string>)
    requires forall i :: 0 <= i < |images| ==> !Contains(doc, Token(i))
    requires |images| > 0 ==> !Contains(doc, LegacyToken)
    ensures SubstituteImages(doc, images) == doc
  {
    SubstituteFirstUntouched(doc, images, |images|);
  }

  // ---------------------------------------------------------------------
  // The composed preview
  // ---------------------------------------------------------------------

  /** `getPreviewDoc` on a version: empty markup previews as the empty document. */
  function Compose(v: History.Snapshot): string {
    if v.html == "" then "" else SubstituteImages(InlineAssets(v.html, v.css, v.js), v.images)
  }

  /** A fragment with no `<head>`, no `</body>` and no references to the asset files passes the inlining steps unchanged. */
  lemma InlineUntouched(doc: string, css: string, js: string)
    requires !Contains(doc, "<head>") && !Contains(doc, "</body>")
    requires !Contains(doc, StyleHref) && !Contains(doc, ScriptSrc)
    ensures InlineAssets(doc, css, js) == doc
  {
  }
}
