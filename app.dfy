/**
 * The application shell (App.tsx): the table of course steps handed to the
 * sidebar and the description of the current page handed to the tutor.
 */
module App {
  import opened Strings

  datatype StepStatus = Locked | Active | Completed

  datatype CourseStep = CourseStep(id: string, title: string, description: string, path: string, status: StepStatus)

  /** The course's steps, in order. */
  const Steps := [
    CourseStep("setup", "1. Tools & Setup", "Install VS Code", "/setup", Active),
    CourseStep("code", "2. Writing Code", "HTML & CSS Basics", "/code", Active),
    CourseStep("deploy", "3. Deployment", "Publish to Netlify", "/deploy", Active)
  ]

  /** Every step is open and lives at the path named after it. */
  lemma StepsTable()
    ensures |Steps| == 3
    ensures Steps[0].id == "setup" && Steps[1].id == "code" && Steps[2].id == "deploy"
    ensures forall i :: 0 <= i < |Steps| ==> Steps[i].status == Active && Steps[i].path == "/" + Steps[i].id
  {
  }

  const WelcomeContext := "Welcome Page"
  const SetupContext := "Setup Phase: Installing VS Code and Live Server"
  const CodeContext := "Coding Phase: Writing HTML and CSS for the workout app"
  const DeployContext := "Deployment Phase: Using Netlify Drop or GitHub"
  const GlossaryContext := "Glossary: Learning web development terminology"
  const BuilderContext := "AI Site Builder: Using Generative AI to create website code automatically"

  /** `currentContext`: the welcome description, overwritten by each later keyword the path contains. */
  function CurrentContext(pathname: string): string {
    var c := WelcomeContext;
    var c := if Contains(pathname, "setup") then SetupContext else c;
    var c := if Contains(pathname, "code") then CodeContext else c;
    var c := if Contains(pathname, "deploy") then DeployContext else c;
    var c := if Contains(pathname, "glossary") then GlossaryContext else c;
    var c := if Contains(pathname, "builder") then BuilderContext else c;
    c
  }

  /**
   * The overwrites amount to a precedence: builder over glossary over deploy
   * over code over setup, and the welcome description when the path names
   * none of them.
   */
  lemma ContextPrecedence(pathname: string)
    ensures CurrentContext(pathname) ==
      if Contains(pathname, "builder") then BuilderContext
      else if Contains(pathname, "glossary") then GlossaryContext
      else if Contains(pathname, "deploy") then DeployContext
      else if Contains(pathname, "code") then CodeContext
      else if Contains(pathname, "setup") then SetupContext
      else WelcomeContext
  {
  }

  /** The tutor is always told one of exactly six descriptions. */
  lemma ContextRange(pathname: string)
    ensures CurrentContext(pathname) in
      {WelcomeContext, SetupContext, CodeContext, DeployContext, GlossaryContext, BuilderContext}
  {
  }

  /** The path `/` followed by a keyword contains that keyword. */
  lemma PathNames(p: string, keyword: string)
    requires p == "/" + keyword
    ensures Contains(p, keyword)
  {
    assert StartsAt(p, keyword, 1);
  }

  lemma RootContext(p: string)
    requires p == "/"
    ensures CurrentContext(p) == WelcomeContext
  {
    MissingChar(p, "setup", 's');
    MissingChar(p, "code", 'c');
    MissingChar(p, "deploy", 'd');
    MissingChar(p, "glossary", 'g');
    MissingChar(p, "builder", 'b');
  }

  lemma SetupPageContext(p: string)
    requires p == "/setup"
    ensures CurrentContext(p) == SetupContext
  {
    PathNames(p, "setup");
    MissingChar(p, "code", 'c');
    MissingChar(p, "deploy", 'd');
    MissingChar(p, "glossary", 'g');
    MissingChar(p, "builder", 'b');
  }

  lemma CodePageContext(p: string)
    requires p == "/code"
    ensures CurrentContext(p) == CodeContext
  {
    PathNames(p, "code");
    MissingChar(p, "deploy", 'p');
    MissingChar(p, "glossary", 'g');
    MissingChar(p, "builder", 'b');
  }

  lemma DeployPageContext(p: string)
    requires p == "/deploy"
    ensures CurrentContext(p) == DeployContext
  {
    PathNames(p, "deploy");
    MissingChar(p, "glossary", 'g');
    MissingChar(p, "builder", 'b');
  }

  lemma GlossaryPageContext(p: string)
    requires p == "/glossary"
    ensures CurrentContext(p) == GlossaryContext
  {
    PathNames(p, "glossary");
    MissingChar(p, "builder", 'b');
  }

  lemma BuilderPageContext(p: string)
    requires p == "/builder"
    ensures CurrentContext(p) == BuilderContext
  {
    PathNames(p, "builder");
  }

  /** The steps' own paths are described as their phases. */
  lemma StepContexts()
    ensures CurrentContext(Steps[0].path) == SetupContext
    ensures CurrentContext(Steps[1].path) == CodeContext
    ensures CurrentContext(Steps[2].path) == DeployContext
  {
    SetupPageContext(Steps[0].path);
    CodePageContext(Steps[1].path);
    DeployPageContext(Steps[2].path);
  }
}
