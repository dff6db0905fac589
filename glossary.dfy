/**
 * The glossary page (pages/Glossary.tsx): the table of terms, the search
 * filter over it and the colour of each category's badge.
 */
module Glossary {
  import opened Strings

  datatype Category = Language | Tool | Concept | Platform

  datatype Term = Term(term: string, definition: string, category: Category)

  /** The glossary's fifteen entries, in the order the page lists them. */
  const Terms: seq<Term> := [
    Term("HTML",
      "HyperText Markup Language. The skeleton of a website. It tells the browser what is a heading, a paragraph, an image, etc.",
      Language),
    Term("CSS",
      "Cascading Style Sheets. The clothing of a website. It tells the browser how things should look (colors, fonts, spacing).",
      Language),
    Term("JavaScript",
      "The muscles of a website. It makes things interactive (like what happens when you click a button or submit a form).",
      Language),
    Term("DOM",
      "Document Object Model. Think of it as a family tree of your HTML elements that the browser creates. JavaScript uses this tree to change things on the page.",
      Concept),
    Term("Repository (Repo)",
      "A storage location for your project's code files. It's like a folder, but supercharged with history tracking (Git).",
      Concept),
    Term("Deploy",
      "The process of moving your website from your computer to a server on the internet so others can see it.",
      Concept),
    Term("Hosting",
      "A service that provides space on a server to store your website files. Netlify is a hosting provider.",
      Concept),
    Term("Domain",
      "The address of your website (e.g., google.com). It's easier for humans to remember than an IP address.",
      Concept),
    Term("IDE",
      "Integrated Development Environment. A fancy word for a code editor with extra tools. VS Code is an IDE.",
      Tool),
    Term("Extension",
      "A plugin that adds new features to your software. 'Live Server' is an extension for VS Code.",
      Tool),
    Term("VS Code",
      "Visual Studio Code. A free, popular code editor made by Microsoft. It's the industry standard for web development.",
      Tool),
    Term("Netlify",
      "A platform that hosts websites for free. It's famous for being very easy to use for beginners.",
      Platform),
    Term("GitHub",
      "A website that hosts your Git repositories. It allows you to backup your code and share it with other developers.",
      Platform),
    Term("Frontend",
      "The part of the website users see and interact with (built with HTML, CSS, JS).",
      Concept),
    Term("Browser",
      "Software used to view websites (e.g., Chrome, Firefox, Safari). It reads your HTML/CSS and paints the screen.",
      Tool)
  ]

  /** The category as the page spells it. */
  function CategoryName(c: Category): string {
    match c
    case Language => "Language"
    case Tool => "Tool"
    case Concept => "Concept"
    case Platform => "Platform"
  }

  // ---------------------------------------------------------------------
  // Search
  // ---------------------------------------------------------------------

  /** The search matches a term when, ignoring letter case, it occurs in the term's name or definition. */
  predicate Matches(t: Term, search: string) {
    Contains(Lower(t.term), Lower(search)) || Contains(Lower(t.definition), Lower(search))
  }

  /** `terms.filter(...)`: the entries the search matches, in their order. */
  function Filter(ts: seq<Term>, search: string): (r: seq<Term>)
    ensures |r| <= |ts|
    ensures forall t :: t in r <==> t in ts && Matches(t, search)
    decreases |ts|
  {
    if ts == [] then []
    else (if Matches(ts[0], search) then [ts[0]] else []) + Filter(ts[1..], search)
  }

  /** `xs` is `ys` with some entries left out, the rest in order. */
  predicate IsSubsequence<T(==)>(xs: seq<T>, ys: seq<T>)
    decreases |ys|
  {
    if xs == [] then true
    else if ys == [] then false
    else if xs[0] == ys[0] then IsSubsequence(xs[1..], ys[1..])
    else IsSubsequence(xs, ys[1..])
  }

  /** The filter only leaves entries out; it never reorders or repeats any. */
  lemma {:induction false} FilterKeepsOrder(ts: seq<Term>, search: string)
    ensures IsSubsequence(Filter(ts, search), ts)
    decreases |ts|
  {
    if ts != [] {
      FilterKeepsOrder(ts[1..], search);
      var rest := Filter(ts[1..], search);
      if Matches(ts[0], search) {
        assert Filter(ts, search) == [ts[0]] + rest;
        assert ([ts[0]] + rest)[1..] == rest;
      } else {
        assert Filter(ts, search) == rest;
        if rest != [] {
          assert rest[0] in rest;
        }
      }
    }
  }

  /** The empty search matches everything. */
  lemma {:induction false} EmptySearchKeepsAll(ts: seq<Term>)
    ensures Filter(ts, "") == ts
    decreases |ts|
  {
    if ts != [] {
      assert StartsAt(Lower(ts[0].term), "", 0);
      EmptySearchKeepsAll(ts[1..]);
      assert [ts[0]] + ts[1..] == ts;
    }
  }

  /** With an empty search box the page lists all fifteen entries. */
  lemma EmptySearchListsTable()
    ensures Filter(Terms, "") == Terms && |Terms| == 15
  {
    EmptySearchKeepsAll(Terms);
  }

  /** The search ignores letter case. */
  lemma {:induction false} SearchIgnoresCase(ts: seq<Term>, search: string)
    ensures Filter(ts, Lower(search)) == Filter(ts, search)
    decreases |ts|
  {
    LowerIdempotent(search);
    if ts != [] {
      SearchIgnoresCase(ts[1..], search);
    }
  }

  // ---------------------------------------------------------------------
  // Badge colours
  // ---------------------------------------------------------------------

  const DefaultColor := "bg-slate-500/10 text-slate-400"

  /** The badge classes of each category. */
  function Badge(c: Category): string {
    match c
    case Language => "bg-orange-500/10 text-orange-400 border-orange-500/20"
    case Tool => "bg-blue-500/10 text-blue-400 border-blue-500/20"
    case Concept => "bg-purple-500/10 text-purple-400 border-purple-500/20"
    case Platform => "bg-emerald-500/10 text-emerald-400 border-emerald-500/20"
  }

  /** `getCategoryColor`: the spelled-out categories get their badge, any other name the default. */
  function CategoryColor(cat: string): string {
    if cat == "Language" then Badge(Language)
    else if cat == "Tool" then Badge(Tool)
    else if cat == "Concept" then Badge(Concept)
    else if cat == "Platform" then Badge(Platform)
    else DefaultColor
  }

  /** A category's spelled-out name selects that category's badge. */
  lemma ColorOfName(c: Category)
    ensures CategoryColor(CategoryName(c)) == Badge(c)
  {
    match c
    case Language =>
    case Tool => assert |"Tool"| != |"Language"|;
    case Concept => assert "Concept"[0] == 'C';
    case Platform => assert "Platform"[0] == 'P';
  }

  /**
   * The four categories get four different colours, none of them the default;
   * every other name gets the default.
   */
  lemma CategoryColorsDistinct(c: Category, d: Category, other: string)
    requires other !in {"Language", "Tool", "Concept", "Platform"}
    ensures CategoryColor(CategoryName(c)) != DefaultColor
    ensures c != d ==> CategoryColor(CategoryName(c)) != CategoryColor(CategoryName(d))
    ensures CategoryColor(other) == DefaultColor
  {
    ColorOfName(c);
    ColorOfName(d);
    BadgeNotDefault(c);
    if c != d {
      BadgesDiffer(c, d);
    }
  }

  /** No category uses the default badge. */
  lemma BadgeNotDefault(c: Category)
    ensures Badge(c) != DefaultColor
  {
  }

  /** No two categories share a badge. */
  lemma BadgesDiffer(c: Category, d: Category)
    requires c != d
    ensures Badge(c) != Badge(d)
  {
  }
}
