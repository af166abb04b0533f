# rustreleaser: the Homebrew formula publisher, modelled in Dafny

rustreleaser publishes a release as a Homebrew formula. This project models
two parts of it:

- **Formula assembly** (`src/brew/mod.rs`). `Targets::from` turns the release
  packages into targets. A release whose first package has no OS and no arch
  becomes one `Single` target. Otherwise the packages become `Multi` targets,
  one per maximal run of consecutive packages with the same OS
  (itertools' `group_by`). `Brew::new` builds the formula record. It applies
  the defaults `"main"` for `head` and `"update formula"` for the commit
  message, and `captalize` upper-cases the first character of the name.
- **Publishing** (`release` and `push_formula` in `src/brew/mod.rs`, and
  `CreatePullRequestBuilder` in
  `src/github/builder/create_pull_request_builder.rs`). After the formula is
  rendered and written to `<Name>.rb`, there are two paths. Without a
  pull-request configuration, the formula is upserted on the formula's `head`
  branch. With one, the workflow gets the base branch's commit, creates the
  head branch at it, upserts the file there and opens a pull request. It stops
  at the first failed call and attaches that step's context message to the
  error.

Modules:

- `Wrappers`: Option and Result.
- `BrewTargets`: packages, targets, the run grouping and `TargetsFrom`.
- `GitHub`:
  - the committer identity;
  - the remote calls (`Call`);
  - a `Client` class that appends each call to `trace` and gets its answer
    from an oracle function of the earlier calls;
  - the `CreatePullRequestBuilder` class.
- `BrewFormula`: the configuration records, `Capitalized`/`Capitalize` and
  `NewBrew`.
- `BrewRelease`:
  - a `FileSystem` class (a map from path to content);
  - the specification functions `PushFormulaRun` and `ReleaseRun`, which give
    the call trace and the result;
  - the methods `PushFormula` and `Release`, proved to produce exactly those
    traces.

Behaviour of the code that a reader might not expect, and that the model
follows:

- **Grouping.** Packages are not grouped by first appearance of each OS. The
  code groups consecutive runs, so `[linux, darwin, linux]` gives three
  `Multi` entries. `ReappearingOsStartsNewEntry` proves this.
  `ContiguousGroupsAreDistinct` proves that when each OS's packages are
  adjacent in the input, no two groups share an OS, so each OS gets a single
  entry.
- **Committer.** The pull request is created without a committer.
  `push_formula` sets the committer on the builder, but `execute` never sends
  it (`ExecuteIgnoresCommitter`).
- **Empty name.** An empty formula name is not reported as a configuration
  error. The code panics in `captalize`, so the model makes a non-empty name a
  precondition.
- **Body.** An unset pull-request body is sent as `Some("")`, because
  `push_formula` applies `unwrap_or_default` before the builder's `body`.
- **Branch of the direct upsert.** The direct upsert goes to `brew.head`. That
  is `"main"` only by default, although its error context says "main branch".

## Model

| member | source | states |
|---|---|---|
| BrewTargets.GroupByOs | src/brew/mod.rs:104-108 | the groups split the packages, in order, into non-empty maximal runs that share one `os` key; neighbouring groups have different keys |
| BrewTargets.RunPartitionIsGroupByOs | src/brew/mod.rs:104-108 | every maximal-run partition of the packages is the one `GroupByOs` builds |
| BrewTargets.RunPartitionUnique | src/brew/mod.rs:104-108 | two maximal-run partitions of the same packages are equal |
| BrewTargets.MultiTargetsLayout | src/brew/mod.rs:109-121 | mapping the runs to `Multi` targets gives non-empty entries whose neighbours differ in OS; read in order, the entries give back every package in input order as `(os, arch, url, sha256)` |
| BrewTargets.TargetsFrom | src/brew/mod.rs:93-128 | empty input gives no targets; an untagged first package gives exactly one `Single` with that package's url and sha256, whatever follows; otherwise the run layout above; the grouping branch requires every package to have an `os` and an `arch` (the unwraps) |
| BrewTargets.ArchCountIsPackageCount | src/brew/mod.rs:104-121 | in the grouping branch the number of arch entries equals the number of packages |
| BrewTargets.ReappearingOsStartsNewEntry | src/brew/mod.rs:104-121 | `[linux, darwin, linux]` gives three `Multi` entries, linux, darwin, linux, one arch each |
| BrewTargets.ContiguousGroupsAreDistinct | src/brew/mod.rs:104-108 | when equal OSes are adjacent in the input, no two groups share an OS |
| BrewFormula.Capitalized | src/brew/mod.rs:182-184 | same length and same tail; the first character is no lower-case letter and equals the original one up to case; a name without a lower-case first letter is unchanged |
| BrewFormula.CapitalizedIdempotent | src/brew/mod.rs:182-184 | capitalising twice is capitalising once |
| BrewFormula.Capitalize | src/brew/mod.rs:182-184 | removing the first character and prefixing its upper case yields `Capitalized(s)`; an empty name is excluded (the source panics) |
| BrewFormula.NewBrew | src/brew/mod.rs:43-62 | the name is capitalised; `head` is the configured one or `"main"`; the commit message is the configured one or `"update formula"`; the version is the given one; the targets are `TargetsFrom(packages)`; every other field is copied |
| BrewFormula.NewBrewStable | src/brew/mod.rs:43-62 | assembling again from a formula's own fields, with every default written out, gives the same formula |
| BrewFormula.ResolveCommitter | src/brew/mod.rs:189 | a configured author becomes a committer with the same name and email; without one, the default identity is used |
| GitHub.DefaultCommitter | src/github/builder/create_pull_request_builder.rs:22-29 | the fallback identity is author "Rafael Vigo", email "rvigo07+github@gmail.com" |
| GitHub.CreatePullRequestBuilder.constructor | src/github/builder/create_pull_request_builder.rs:32-47 | stores owner and repo, sets the title to the empty string and every other field to `None` |
| GitHub.CreatePullRequestBuilder.Title | src/github/builder/create_pull_request_builder.rs:49-55 | the title becomes the given one and no other field changes |
| GitHub.TitleLastWriteWins | src/github/builder/create_pull_request_builder.rs:49-55 | after two title calls, only the second value is kept |
| GitHub.CreatePullRequestBuilder.Body | src/github/builder/create_pull_request_builder.rs:57-63 | the body becomes `Some` of the given text and no other field changes |
| GitHub.CreatePullRequestBuilder.Labels | src/github/builder/create_pull_request_builder.rs:65-68 | the labels become `Some` of the given list, unchanged, and no other field changes |
| GitHub.CreatePullRequestBuilder.Assignees | src/github/builder/create_pull_request_builder.rs:70-73 | the assignees become `Some` of the given list, unchanged, and no other field changes |
| GitHub.CreatePullRequestBuilder.SetCommitter | src/github/builder/create_pull_request_builder.rs:75-78 | the committer becomes `Some` copy of the given one and no other field changes |
| GitHub.CreatePullRequestBuilder.Base | src/github/builder/create_pull_request_builder.rs:80-86 | the base becomes `Some` of the given branch and no other field changes |
| GitHub.CreatePullRequestBuilder.Head | src/github/builder/create_pull_request_builder.rs:88-94 | the head becomes `Some` of the given branch and no other field changes |
| GitHub.ExecuteCall | src/github/builder/create_pull_request_builder.rs:100-113 | the request carries owner, repo, title and body as stored, and head and base unwrapped; the assignee and label lists are sent as stored, or as empty lists when unset |
| GitHub.ExecuteIgnoresCommitter | src/github/builder/create_pull_request_builder.rs:100-113 | the stored committer has no effect on the request |
| GitHub.CreatePullRequestBuilder.Execute | src/github/builder/create_pull_request_builder.rs:100-113 | requires head and base to be set (the source unwraps them); appends exactly `ExecuteCall(Fields())` to the client's trace and returns its answer |
| BrewRelease.FileSystem.Write | src/brew/mod.rs:174-180 | a successful write replaces the whole file; a failed one changes nothing |
| BrewRelease.FileSystem.ReadToString | src/brew/mod.rs:218 | the read succeeds exactly when the file exists, with its content |
| BrewRelease.HeadBranch | src/brew/mod.rs:191-193 | the pull request's head branch, or `"bumps-formula-version"` when unset |
| BrewRelease.BaseBranch | src/brew/mod.rs:195-197 | the pull request's base branch, or `"main"` when unset |
| BrewRelease.PlannedPrCalls | src/brew/mod.rs:199-245 | the four calls in order, get commit sha, create branch, upsert, create pull request, all on the formula's repository; the SHA is read from the base branch and the pull request targets that branch; the created branch is the one uploaded to and the pull request's head; the upsert carries the formula path, message, content and resolved committer; title, body, assignees and labels are defaulted |
| BrewRelease.PushFormulaRun | src/brew/mod.rs:186-248 | between one and four calls, forming a prefix of the planned calls; every call before the last one was answered; the run goes on after every answered call, stopping early only when the formula file is missing after the branch creation, which fails with a read error; success exactly when all four were answered; a refused call fails the run with its step's context; the upload happens only if the file was read |
| BrewRelease.NothingAfterRefusal | src/brew/mod.rs:186-248 | a refused call is the last call made, and the run fails |
| BrewRelease.OpenPullRequest | src/brew/mod.rs:233-245 | the builder chain sends exactly one pull-request request, with the given head and base, the title defaulted to the empty string, the body to `Some("")`, and the assignees and labels to empty lists |
| BrewRelease.PushFormula | src/brew/mod.rs:186-248 | the calls made and the outcome are exactly those of `PushFormulaRun` |
| BrewRelease.TemplateFor | src/brew/mod.rs:136-140 | the multi-target template exactly when the release is multi-target |
| BrewRelease.Prepare | src/brew/mod.rs:135-142 | a failed tag lookup is reported before the formula is assembled; otherwise the formula is `NewBrew` with the tag as version, rendered with `TemplateFor`; a failed rendering is reported as a render error |
| BrewRelease.DirectUploadCall | src/brew/mod.rs:150-157 | the upsert of `<Name>.rb` with the formula's commit message and the given text, on the formula's `head` branch of its repository, without a committer |
| BrewRelease.DirectRelease | src/brew/mod.rs:144-162 | the formula file holds the text; exactly one call, the direct upsert; success, returning the text, exactly when it was answered; a refusal fails with the "main branch" context |
| BrewRelease.PullRequestRelease | src/brew/mod.rs:144-162 | the formula file holds the text; the calls are a prefix of the planned four uploading exactly that text; they go on while the service answers, so an answered last call means all four were made; a refusal fails with its step's context; success, returning the text, exactly when all four were answered |
| BrewRelease.ReleaseRun | src/brew/mod.rs:130-163 | a failed tag lookup or render makes no call, changes no file and reports the error; a failed write makes no call; otherwise `<Name>.rb` holds the rendered text. Without a pull-request configuration the only call is the upsert on `head` (failure wraps the "main branch" context). With one, the calls are a prefix of the planned four that uploads exactly the rendered text; they go on while the service answers, and a refusal fails with its step's context. Success returns the rendered text |
| BrewRelease.Release | src/brew/mod.rs:130-163 | the calls made, the files and the result are exactly those of `ReleaseRun`; the formula preconditions are needed only once the tag lookup has succeeded |

## Left out

- `src/main.rs`: loading the configuration, the logger and the async runtime. That code always passes `is_multitarget = false`; here it is a parameter.
- `git::get_current_tag` runs an external process. Its result is the `tag` parameter of `Release`, and it may fail.
- The Handlebars renderer (`serialize_brew`) is not modelled. Rendering is the `render` parameter, a function of the template and the formula that may fail.
- The hosting service is reduced to an oracle: it answers each call given the earlier calls. These are not modelled:
  - the network;
  - the `async` suspension points;
  - the builders behind the get-commit-SHA, create-branch and upsert calls (what each call carries is stated in `Call`);
  - the service's own behaviour, such as refusing to create a branch that already exists.
- A write to the file system either fails or replaces the whole file. Partial writes, concurrent runs and encodings are not modelled.
- `log::debug!` calls and the Serde derives have no behaviour to model.
- The source's `Os` and `Arch` enums and its `Install` struct are not part of this model. `Os` and `Arch` are modelled by their names, and `Install` is carried through unchanged. `Package` has only the fields the code reads: url, sha256, os and arch.
- Capitalize: restricted to names whose first character is ASCII. Rust's `to_uppercase` can turn a non-ASCII character into several characters.
- Capitalized: same ASCII restriction as `Capitalize`.
- NewBrew: same ASCII restriction on the name's first character, through `Capitalized`.
- Panics are preconditions, not modelled errors:
  - the `unwrap` of `os` and `arch` in the grouping branch;
  - `remove(0)` on an empty name;
  - the `unwrap` of `head` and `base` in `execute`.
- The chainable builder's `mut self` ownership transfer is modelled as in-place updates of one object.
