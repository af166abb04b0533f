/** Formula assembly (`Brew::new` and `captalize` in src/brew/mod.rs): the
    Homebrew configuration, the release version and the packages become one
    `Brew` record, with defaults applied and the name capitalised. */
module BrewFormula {
  import opened Wrappers
  import opened BrewTargets
  import opened GitHub

  const DEFAULT_BASE_BRANCH_NAME := "main"
  const DEFAULT_COMMIT_MESSAGE := "update formula"

  /** The install section of the configuration; its structure is not part of
      this model, it is only carried from the configuration to the formula. */
  type Install = string

  datatype Repository = Repository(owner: string, name: string)
  datatype CommitterConfig = CommitterConfig(name: string, email: string)

  datatype PullRequestConfig = PullRequestConfig(
    title: Option<string>, body: Option<string>, labels: Option<seq<string>>,
    assignees: Option<seq<string>>, head: Option<string>, base: Option<string>)

  datatype BrewConfig = BrewConfig(
    name: string, description: Option<string>, homepage: Option<string>,
    license: Option<string>, head: Option<string>, test: Option<string>,
    caveats: Option<string>, commitMessage: Option<string>,
    commitAuthor: Option<CommitterConfig>, install: Install,
    repository: Repository, pullRequest: Option<PullRequestConfig>)

  datatype Brew = Brew(
    name: string, description: Option<string>, homepage: Option<string>,
    license: Option<string>, head: string, test: Option<string>,
    caveats: Option<string>, commitMessage: string,
    commitAuthor: Option<CommitterConfig>, installInfo: Install,
    repository: Repository, version: string,
    pullRequest: Option<PullRequestConfig>, targets: Targets)

  // ---------------------------------------------------------------------------
  // captalize
  // ---------------------------------------------------------------------------

  predicate IsAscii(c: char) {
    c < 128 as char
  }

  predicate IsLowerAscii(c: char) {
    'a' <= c <= 'z'
  }

  function UpperAscii(c: char): char {
    if IsLowerAscii(c) then (c as int - 32) as char else c
  }

  function LowerAscii(c: char): char {
    if 'A' <= c <= 'Z' then (c as int + 32) as char else c
  }

  /** The name with its first character upper-cased: same length, same tail,
      a first character that is no lower-case letter and that agrees with the
      original one up to case. */
  function Capitalized(s: string): (r: string)
    requires s != [] && IsAscii(s[0])
    ensures |r| == |s| && r[1..] == s[1..]
    ensures !IsLowerAscii(r[0]) && LowerAscii(r[0]) == LowerAscii(s[0])
    ensures !IsLowerAscii(s[0]) ==> r == s
  {
    [UpperAscii(s[0])] + s[1..]
  }

  /** Capitalising a capitalised name changes nothing. */
  lemma CapitalizedIdempotent(s: string)
    requires s != [] && IsAscii(s[0])
    ensures IsAscii(Capitalized(s)[0]) && Capitalized(Capitalized(s)) == Capitalized(s)
  {
  }

  /** `captalize` in its own step-by-step form: `remove(0)` takes the first
      character out of the string, which is then prefixed with its upper-case
      form. The formula assembly uses the function `Capitalized`, which this
      method is proved to compute. */
  method Capitalize(s: string) returns (r: string)
    requires s != [] && IsAscii(s[0])
    ensures r == Capitalized(s)
  {
    var rest := s;
    var first := rest[0];
    rest := rest[1..];
    r := [UpperAscii(first)] + rest;
  }

  // ---------------------------------------------------------------------------
  // Brew::new
  // ---------------------------------------------------------------------------

  /** The inputs on which `Brew::new` does not panic. */
  predicate NewBrewDefined(cfg: BrewConfig, packages: seq<Package>) {
    cfg.name != [] && IsAscii(cfg.name[0]) && FromDefined(packages)
  }

  function NewBrew(cfg: BrewConfig, version: string, packages: seq<Package>): (b: Brew)
    requires NewBrewDefined(cfg, packages)
    ensures b.name == Capitalized(cfg.name)
    ensures cfg.head.Some? ==> b.head == cfg.head.value
    ensures cfg.head.None? ==> b.head == DEFAULT_BASE_BRANCH_NAME
    ensures cfg.commitMessage.Some? ==> b.commitMessage == cfg.commitMessage.value
    ensures cfg.commitMessage.None? ==> b.commitMessage == DEFAULT_COMMIT_MESSAGE
    ensures b.version == version && b.targets == TargetsFrom(packages)
    ensures b.description == cfg.description && b.homepage == cfg.homepage
    ensures b.license == cfg.license && b.test == cfg.test && b.caveats == cfg.caveats
    ensures b.commitAuthor == cfg.commitAuthor && b.installInfo == cfg.install
    ensures b.repository == cfg.repository && b.pullRequest == cfg.pullRequest
  {
    Brew(
      name := Capitalized(cfg.name),
      description := cfg.description,
      homepage := cfg.homepage,
      license := cfg.license,
      head := cfg.head.GetOr(DEFAULT_BASE_BRANCH_NAME),
      test := cfg.test,
      caveats := cfg.caveats,
      commitMessage := cfg.commitMessage.GetOr(DEFAULT_COMMIT_MESSAGE),
      commitAuthor := cfg.commitAuthor,
      installInfo := cfg.install,
      repository := cfg.repository,
      version := version,
      pullRequest := cfg.pullRequest,
      targets := TargetsFrom(packages))
  }

  /** The configuration a formula would have been written as, every default
      spelled out. */
  function ConfigOf(b: Brew): BrewConfig {
    BrewConfig(b.name, b.description, b.homepage, b.license, Some(b.head), b.test,
               b.caveats, Some(b.commitMessage), b.commitAuthor, b.installInfo,
               b.repository, b.pullRequest)
  }

  /** A sanity property of the model rather than a promise of the source:
      assembling again from an assembled formula's own configuration yields
      the same formula, so the defaults and the capitalisation are stable. */
  lemma NewBrewStable(cfg: BrewConfig, version: string, packages: seq<Package>)
    requires NewBrewDefined(cfg, packages)
    ensures NewBrewDefined(ConfigOf(NewBrew(cfg, version, packages)), packages)
    ensures NewBrew(ConfigOf(NewBrew(cfg, version, packages)), version, packages) == NewBrew(cfg, version, packages)
  {
  }

  /** `CommitterConfig -> Committer` (`From` impl) and the fallback of
      `push_formula`: the configured author if any, else the default identity. */
  function ResolveCommitter(author: Option<CommitterConfig>): (c: Committer)
    ensures author.Some? ==> c.author == author.value.name && c.email == author.value.email
    ensures author.None? ==> c == DefaultCommitter()
  {
    match author
    case Some(a) => Committer(a.name, a.email)
    case None => DefaultCommitter()
  }
}
