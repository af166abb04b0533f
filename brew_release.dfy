/** The publish workflow (`release` and `push_formula` in src/brew/mod.rs):
    render the formula, write `<Name>.rb`, then either upsert it on the
    formula's head branch or open a pull request through four remote calls,
    stopping at the first error.

    The trace of remote calls is specified by the functions `PushFormulaRun`
    and `ReleaseRun`; the methods `PushFormula` and `Release` perform the
    steps against a `Client` and a `FileSystem` and are proved to produce
    exactly those traces. */
module BrewRelease {
  import opened Wrappers
  import opened BrewTargets
  import opened GitHub
  import opened BrewFormula

  const DEFAULT_HEAD_BRANCH_NAME := "bumps-formula-version"

  const MAIN_UPLOAD_CONTEXT := "error uploading file to main branch"
  const BASE_SHA_CONTEXT := "error getting the base branch commit sha"
  const CREATE_BRANCH_CONTEXT := "error creating the branch"
  const HEAD_UPLOAD_CONTEXT := "error uploading file to head branch"
  const PULL_REQUEST_CONTEXT := "error creating pull request"

  /** The context attached to a failure of each call of the pull-request path. */
  const PR_STEP_CONTEXTS := [BASE_SHA_CONTEXT, CREATE_BRANCH_CONTEXT, HEAD_UPLOAD_CONTEXT, PULL_REQUEST_CONTEXT]

  datatype Template = SingleTargetTemplate | MultiTargetTemplate

  /** The template engine is not modelled: rendering is a parameter that may fail. */
  type Renderer = (Template, Brew) -> Result<string, string>

  datatype PublishError =
    | TagError(cause: string)
    | RenderError(cause: string)
    | WriteError(path: string)
    | ReadError(path: string)
    | RemoteError(context: string, cause: string)

  datatype Outcome = Done | Failed(error: PublishError)

  datatype PushTrace = PushTrace(calls: seq<Call>, outcome: Outcome)

  datatype ReleaseTrace = ReleaseTrace(calls: seq<Call>, files: map<string, string>,
                                       result: Result<string, PublishError>)

  /** The local disk, as a map from path to content; writes to the paths in
      `refused` fail. */
  class FileSystem {
    var files: map<string, string>
    const refused: set<string>

    constructor (files: map<string, string>, refused: set<string>)
      ensures this.files == files && this.refused == refused
    {
      this.files := files;
      this.refused := refused;
    }

    /** `fs::write`: replaces the whole file. */
    method Write(path: string, data: string) returns (ok: bool)
      modifies this
      ensures ok == (path !in refused)
      ensures files == if ok then old(files)[path := data] else old(files)
    {
      ok := path !in refused;
      if ok {
        files := files[path := data];
      }
    }

    /** `fs::read_to_string`: fails on a missing file. */
    method ReadToString(path: string) returns (content: Option<string>)
      ensures path in files <==> content.Some?
      ensures path in files ==> content.value == files[path]
    {
      if path in files {
        content := Some(files[path]);
      } else {
        content := None;
      }
    }
  }

  /** The template `release` renders with: the multi-target one exactly when
      the release is multi-target. */
  function TemplateFor(isMultitarget: bool): (t: Template)
    ensures t.MultiTargetTemplate? <==> isMultitarget
  {
    if isMultitarget then MultiTargetTemplate else SingleTargetTemplate
  }

  function FormulaPath(b: Brew): string {
    b.name + ".rb"
  }

  function HeadBranch(pr: PullRequestConfig): (r: string)
    ensures pr.head.Some? ==> r == pr.head.value
    ensures pr.head.None? ==> r == DEFAULT_HEAD_BRANCH_NAME
  {
    pr.head.GetOr(DEFAULT_HEAD_BRANCH_NAME)
  }

  function BaseBranch(pr: PullRequestConfig): (r: string)
    ensures pr.base.Some? ==> r == pr.base.value
    ensures pr.base.None? ==> r == DEFAULT_BASE_BRANCH_NAME
  {
    pr.base.GetOr(DEFAULT_BASE_BRANCH_NAME)
  }

  function ReplyData(r: Reply): string {
    if r.Answered? then r.data else ""
  }

  function FileOr(files: map<string, string>, path: string): string {
    if path in files then files[path] else ""
  }

  /** The one call of the direct-commit path: the formula file, with the
      formula's commit message and the given text, upserted on the formula's
      `head` branch of its repository, with no committer. */
  function DirectUploadCall(b: Brew, data: string): (c: Call)
    ensures c.UpsertFile? && c.owner == b.repository.owner && c.repo == b.repository.name
    ensures c.branch == b.head && c.path == FormulaPath(b) && c.message == b.commitMessage
    ensures c.content == data && c.committer.None?
  {
    UpsertFile(b.repository.owner, b.repository.name, b.head, FormulaPath(b), b.commitMessage, data, None)
  }

  function BaseShaCall(b: Brew): Call
    requires b.pullRequest.Some?
  {
    GetCommitSha(b.repository.owner, b.repository.name, BaseBranch(b.pullRequest.value))
  }

  /** The four calls of the pull-request path when every one succeeds, for
      base commit `sha` and formula text `content`: the branch is created at
      the base branch's commit, the formula goes to the new branch, and the
      pull request asks to merge that branch into the base branch. */
  function PlannedPrCalls(b: Brew, sha: string, content: string): (calls: seq<Call>)
    requires b.pullRequest.Some?
    ensures |calls| == 4
    ensures calls[0].GetCommitSha? && calls[1].CreateBranch? && calls[2].UpsertFile? && calls[3].CreatePullRequest?
    ensures forall i :: 0 <= i < 4 ==> calls[i].owner == b.repository.owner && calls[i].repo == b.repository.name
    ensures calls[0].branch == calls[3].base == BaseBranch(b.pullRequest.value)
    ensures calls[1].branch == calls[2].branch == calls[3].head == HeadBranch(b.pullRequest.value)
    ensures calls[1].sha == sha
    ensures calls[2].path == FormulaPath(b) && calls[2].message == b.commitMessage && calls[2].content == content
    ensures calls[2].committer == Some(ResolveCommitter(b.commitAuthor))
    ensures var pr := b.pullRequest.value;
            && calls[3].title == pr.title.GetOr("") && calls[3].body == Some(pr.body.GetOr(""))
            && calls[3].assignees == pr.assignees.GetOr([]) && calls[3].labels == pr.labels.GetOr([])
  {
    var pr := b.pullRequest.value;
    var owner, repo := b.repository.owner, b.repository.name;
    var head, base := HeadBranch(pr), BaseBranch(pr);
    [ GetCommitSha(owner, repo, base),
      CreateBranch(owner, repo, head, sha),
      UpsertFile(owner, repo, head, FormulaPath(b), b.commitMessage, content, Some(ResolveCommitter(b.commitAuthor))),
      CreatePullRequest(owner, repo, pr.title.GetOr(""), head, base, Some(pr.body.GetOr("")),
                        pr.assignees.GetOr([]), pr.labels.GetOr([])) ]
  }

  /** Every call of `calls` but the last one was answered successfully. */
  ghost predicate AnsweredUpToLast(answer: Oracle, history: seq<Call>, calls: seq<Call>) {
    forall i :: 0 <= i < |calls| - 1 ==> answer(history + calls[..i], calls[i]).Answered?
  }

  function LastReply(answer: Oracle, history: seq<Call>, calls: seq<Call>): Reply
    requires calls != []
  {
    answer(history + calls[..|calls| - 1], calls[|calls| - 1])
  }

  /** `push_formula` on `files`, against a service answering by `answer` after
      `history`: a prefix of the planned calls, cut right after the first
      refused call, with that call's context on the error; success exactly
      when all four calls were answered. */
  function PushFormulaRun(b: Brew, files: map<string, string>, answer: Oracle, history: seq<Call>): (run: PushTrace)
    requires b.pullRequest.Some?
    ensures 1 <= |run.calls| <= 4
    ensures run.calls <= PlannedPrCalls(b, ReplyData(answer(history, BaseShaCall(b))), FileOr(files, FormulaPath(b)))
    ensures AnsweredUpToLast(answer, history, run.calls)
    ensures run.outcome.Done? <==> |run.calls| == 4 && LastReply(answer, history, run.calls).Answered?
    ensures LastReply(answer, history, run.calls).Refused? ==>
              run.outcome == Failed(RemoteError(PR_STEP_CONTEXTS[|run.calls| - 1], LastReply(answer, history, run.calls).cause))
    ensures |run.calls| == 2 && LastReply(answer, history, run.calls).Answered? ==>
              FormulaPath(b) !in files && run.outcome == Failed(ReadError(FormulaPath(b)))
    ensures |run.calls| > 2 ==> FormulaPath(b) in files
    ensures LastReply(answer, history, run.calls).Answered? ==>
              |run.calls| == 4 || (|run.calls| == 2 && FormulaPath(b) !in files)
  {
    var path := FormulaPath(b);
    var planned := PlannedPrCalls(b, ReplyData(answer(history, BaseShaCall(b))), FileOr(files, path));
    var c1 := planned[0];
    var r1 := answer(history, c1);
    assert [c1] == planned[..1];
    assert history + [c1][..0] == history;
    if r1.Refused? then
      PushTrace([c1], Failed(RemoteError(BASE_SHA_CONTEXT, r1.cause)))
    else
      var c2 := planned[1];
      var r2 := answer(history + [c1], c2);
      assert history + [c1, c2][..0] == history && history + [c1, c2][..1] == history + [c1];
      assert [c1, c2] == planned[..2];
      if r2.Refused? then
        PushTrace([c1, c2], Failed(RemoteError(CREATE_BRANCH_CONTEXT, r2.cause)))
      else if path !in files then
        PushTrace([c1, c2], Failed(ReadError(path)))
      else
        var c3 := planned[2];
        var r3 := answer(history + [c1, c2], c3);
        assert history + [c1, c2, c3][..0] == history && history + [c1, c2, c3][..1] == history + [c1];
        assert history + [c1, c2, c3][..2] == history + [c1, c2];
        assert [c1, c2, c3] == planned[..3];
        if r3.Refused? then
          PushTrace([c1, c2, c3], Failed(RemoteError(HEAD_UPLOAD_CONTEXT, r3.cause)))
        else
          var c4 := planned[3];
          var r4 := answer(history + [c1, c2, c3], c4);
          assert history + [c1, c2, c3, c4][..0] == history && history + [c1, c2, c3, c4][..1] == history + [c1];
          assert history + [c1, c2, c3, c4][..2] == history + [c1, c2];
          assert history + [c1, c2, c3, c4][..3] == history + [c1, c2, c3];
          if r4.Refused? then
            PushTrace([c1, c2, c3, c4], Failed(RemoteError(PULL_REQUEST_CONTEXT, r4.cause)))
          else
            PushTrace([c1, c2, c3, c4], Done)
  }

  /** A refused call of the pull-request path is the last call made, and the
      run fails. */
  lemma NothingAfterRefusal(b: Brew, files: map<string, string>, answer: Oracle, history: seq<Call>, k: nat)
    requires b.pullRequest.Some?
    requires k < |PushFormulaRun(b, files, answer, history).calls|
    requires var calls := PushFormulaRun(b, files, answer, history).calls;
             answer(history + calls[..k], calls[k]).Refused?
    ensures |PushFormulaRun(b, files, answer, history).calls| == k + 1
    ensures PushFormulaRun(b, files, answer, history).outcome.Failed?
  {
  }

  /** The local part of `release`: the tag, the formula and its rendering.
      A failed tag lookup is reported before the formula is assembled; the
      formula has the tag as its version and is rendered with the template
      the release asks for; a failed rendering is reported as such. */
  function Prepare(cfg: BrewConfig, packages: seq<Package>, isMultitarget: bool,
                   tag: Result<string, string>, render: Renderer): (r: Result<(Brew, string), PublishError>)
    requires tag.Success? ==> NewBrewDefined(cfg, packages)
    ensures tag.Failure? ==> r == Failure(TagError(tag.error))
    ensures tag.Success? ==>
              var b := NewBrew(cfg, tag.value, packages);
              var rendered := render(TemplateFor(isMultitarget), b);
              && (rendered.Failure? ==> r == Failure(RenderError(rendered.error)))
              && (rendered.Success? ==> r == Success((b, rendered.value)) && b.version == tag.value)
  {
    if tag.Failure? then Failure(TagError(tag.error))
    else
      var b := NewBrew(cfg, tag.value, packages);
      var rendered := render(TemplateFor(isMultitarget), b);
      if rendered.Failure? then Failure(RenderError(rendered.error))
      else Success((b, rendered.value))
  }

  /** The branch of `release` without a pull-request configuration, once
      `data` is written to the formula file: one upsert of `data` on the
      formula's head branch; success returns `data`, a refusal carries the
      "main branch" context. */
  function DirectRelease(b: Brew, data: string, files: map<string, string>,
                         answer: Oracle, history: seq<Call>): (run: ReleaseTrace)
    ensures run.files == files[FormulaPath(b) := data]
    ensures run.calls == [DirectUploadCall(b, data)]
    ensures run.result.Success? <==> answer(history, DirectUploadCall(b, data)).Answered?
    ensures run.result.Success? ==> run.result.value == data
    ensures run.result.Failure? ==>
              run.result.error == RemoteError(MAIN_UPLOAD_CONTEXT, answer(history, DirectUploadCall(b, data)).cause)
  {
    var reply := answer(history, DirectUploadCall(b, data));
    ReleaseTrace([DirectUploadCall(b, data)], files[FormulaPath(b) := data],
                 if reply.Refused? then Failure(RemoteError(MAIN_UPLOAD_CONTEXT, reply.cause)) else Success(data))
  }

  /** The pull-request branch of `release` once `data` is written to the
      formula file: the calls are a prefix of the planned four uploading
      exactly `data`, they go on while the service answers and stop at the first
      refusal, whose step context the error carries; success returns `data`. */
  function PullRequestRelease(b: Brew, data: string, files: map<string, string>,
                              answer: Oracle, history: seq<Call>): (run: ReleaseTrace)
    requires b.pullRequest.Some?
    ensures run.files == files[FormulaPath(b) := data]
    ensures 1 <= |run.calls|
    ensures run.calls <= PlannedPrCalls(b, ReplyData(answer(history, BaseShaCall(b))), data)
    ensures AnsweredUpToLast(answer, history, run.calls)
    ensures run.result.Success? <==> |run.calls| == 4 && LastReply(answer, history, run.calls).Answered?
    ensures run.result.Success? ==> run.result.value == data
    ensures LastReply(answer, history, run.calls).Answered? ==> |run.calls| == 4
    ensures LastReply(answer, history, run.calls).Refused? ==>
              run.result == Failure(RemoteError(PR_STEP_CONTEXTS[|run.calls| - 1],
                                                LastReply(answer, history, run.calls).cause))
  {
    var written := files[FormulaPath(b) := data];
    var push := PushFormulaRun(b, written, answer, history);
    assert FileOr(written, FormulaPath(b)) == data;
    ReleaseTrace(push.calls, written, if push.outcome.Done? then Success(data) else Failure(push.outcome.error))
  }

  /** `release`: nothing reaches the service unless the formula was rendered
      and written; without a pull-request configuration the only call is the
      upsert on the formula's head branch; with one, the calls are a prefix of
      the planned four, uploading exactly the rendered text; on success the
      rendered text is returned. */
  function ReleaseRun(cfg: BrewConfig, packages: seq<Package>, isMultitarget: bool,
                      tag: Result<string, string>, render: Renderer,
                      files: map<string, string>, refused: set<string>,
                      answer: Oracle, history: seq<Call>): (run: ReleaseTrace)
    requires tag.Success? ==> NewBrewDefined(cfg, packages)
    ensures var prep := Prepare(cfg, packages, isMultitarget, tag, render);
      && (prep.Failure? ==> run == ReleaseTrace([], files, Failure(prep.error)))
      && (prep.Success? ==>
            var (b, data) := prep.value;
            var path := FormulaPath(b);
            && (path in refused ==> run == ReleaseTrace([], files, Failure(WriteError(path))))
            && (path !in refused ==> run.files == files[path := data])
            && (run.result.Success? ==> run.result.value == data)
            && (path !in refused && b.pullRequest.None? ==>
                  && run.calls == [DirectUploadCall(b, data)]
                  && (run.result.Success? <==> answer(history, DirectUploadCall(b, data)).Answered?)
                  && (run.result.Failure? ==>
                        run.result.error == RemoteError(MAIN_UPLOAD_CONTEXT, answer(history, DirectUploadCall(b, data)).cause)))
            && (path !in refused && b.pullRequest.Some? ==>
                  && 1 <= |run.calls|
                  && run.calls <= PlannedPrCalls(b, ReplyData(answer(history, BaseShaCall(b))), data)
                  && AnsweredUpToLast(answer, history, run.calls)
                  && (run.result.Success? <==> |run.calls| == 4 && LastReply(answer, history, run.calls).Answered?)
                  && (LastReply(answer, history, run.calls).Answered? ==> |run.calls| == 4)
                  && (LastReply(answer, history, run.calls).Refused? ==>
                        run.result == Failure(RemoteError(PR_STEP_CONTEXTS[|run.calls| - 1],
                                                          LastReply(answer, history, run.calls).cause)))))
  {
    match Prepare(cfg, packages, isMultitarget, tag, render)
    case Failure(e) => ReleaseTrace([], files, Failure(e))
    case Success((b, data)) =>
      var path := FormulaPath(b);
      if path in refused then
        ReleaseTrace([], files, Failure(WriteError(path)))
      else
        if b.pullRequest.Some? then PullRequestRelease(b, data, files, answer, history)
        else DirectRelease(b, data, files, answer, history)
  }

  /** `push_formula`: resolve the committer and branch names, then get the
      base commit, create the head branch, re-read the formula file, upsert it
      on the head branch and open the pull request, returning at the first error. */
  method PushFormula(b: Brew, fs: FileSystem, client: Client) returns (outcome: Outcome)
    requires b.pullRequest.Some?
    modifies client
    ensures var run := PushFormulaRun(b, fs.files, client.answer, old(client.trace));
            client.trace == old(client.trace) + run.calls && outcome == run.outcome
  {
    var pr := b.pullRequest.value;
    var committer := ResolveCommitter(b.commitAuthor);
    var head := pr.head.GetOr(DEFAULT_HEAD_BRANCH_NAME);
    var base := pr.base.GetOr(DEFAULT_BASE_BRANCH_NAME);
    var owner, repo := b.repository.owner, b.repository.name;
    ghost var history := client.trace;

    var sha := client.Send(GetCommitSha(owner, repo, base));
    if sha.Refused? {
      return Failed(RemoteError(BASE_SHA_CONTEXT, sha.cause));
    }
    assert client.trace == history + [GetCommitSha(owner, repo, base)];
    var created := client.Send(CreateBranch(owner, repo, head, sha.data));
    assert client.trace == history + [GetCommitSha(owner, repo, base), CreateBranch(owner, repo, head, sha.data)];
    if created.Refused? {
      return Failed(RemoteError(CREATE_BRANCH_CONTEXT, created.cause));
    }
    var path := FormulaPath(b);
    var content := fs.ReadToString(path);
    if content.None? {
      return Failed(ReadError(path));
    }
    var upsert := UpsertFile(owner, repo, head, path, b.commitMessage, content.value, Some(committer));
    var uploaded := client.Send(upsert);
    assert client.trace == history + [GetCommitSha(owner, repo, base), CreateBranch(owner, repo, head, sha.data), upsert];
    if uploaded.Refused? {
      return Failed(RemoteError(HEAD_UPLOAD_CONTEXT, uploaded.cause));
    }
    var prOpened := OpenPullRequest(owner, repo, pr, head, base, committer, client);
    if prOpened.Refused? {
      return Failed(RemoteError(PULL_REQUEST_CONTEXT, prOpened.cause));
    }
    return Done;
  }

  /** The builder chain of `push_formula` that opens the pull request: the
      unset title, body, assignees and labels become empty values. */
  method OpenPullRequest(owner: string, repo: string, pr: PullRequestConfig, head: string, base: string,
                         committer: Committer, client: Client) returns (reply: Reply)
    modifies client
    ensures var c := CreatePullRequest(owner, repo, pr.title.GetOr(""), head, base, Some(pr.body.GetOr("")),
                                       pr.assignees.GetOr([]), pr.labels.GetOr([]));
            client.trace == old(client.trace) + [c] && reply == client.answer(old(client.trace), c)
  {
    var builder := new CreatePullRequestBuilder(owner, repo);
    builder.Assignees(pr.assignees.GetOr([]));
    builder.Base(base);
    builder.Head(head);
    builder.Body(pr.body.GetOr(""));
    builder.Labels(pr.labels.GetOr([]));
    builder.Title(pr.title.GetOr(""));
    builder.SetCommitter(committer);
    reply := builder.Execute(client);
  }

  /** `release`, with the current tag and the renderer given as parameters. */
  method Release(cfg: BrewConfig, packages: seq<Package>, isMultitarget: bool,
                 tag: Result<string, string>, render: Renderer,
                 fs: FileSystem, client: Client) returns (r: Result<string, PublishError>)
    requires tag.Success? ==> NewBrewDefined(cfg, packages)
    modifies fs, client
    ensures var run := ReleaseRun(cfg, packages, isMultitarget, tag, render, old(fs.files), fs.refused,
                                  client.answer, old(client.trace));
            r == run.result && fs.files == run.files && client.trace == old(client.trace) + run.calls
  {
    if tag.Failure? {
      return Failure(TagError(tag.error));
    }
    var brew := NewBrew(cfg, tag.value, packages);
    var rendered := render(TemplateFor(isMultitarget), brew);
    if rendered.Failure? {
      return Failure(RenderError(rendered.error));
    }
    var data := rendered.value;
    var path := FormulaPath(brew);
    var written := fs.Write(path, data);
    if !written {
      return Failure(WriteError(path));
    }
    if brew.pullRequest.Some? {
      var outcome := PushFormula(brew, fs, client);
      if outcome.Failed? {
        return Failure(outcome.error);
      }
    } else {
      var reply := client.Send(DirectUploadCall(brew, data));
      if reply.Refused? {
        return Failure(RemoteError(MAIN_UPLOAD_CONTEXT, reply.cause));
      }
    }
    return Success(data);
  }
}
