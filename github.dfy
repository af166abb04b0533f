/** The hosting-service side of the publisher: the committer identity, the
    remote calls the Homebrew workflow makes, an abstract client that records
    them, and `CreatePullRequestBuilder`
    (src/github/builder/create_pull_request_builder.rs). */
module GitHub {
  import opened Wrappers

  datatype Committer = Committer(author: string, email: string)

  /** `Committer::default()`: the fixed fallback identity. */
  function DefaultCommitter(): (c: Committer)
    ensures c.author == "Rafael Vigo" && c.email == "rvigo07+github@gmail.com"
  {
    Committer("Rafael Vigo", "rvigo07+github@gmail.com")
  }

  /** One request to the hosting service, scoped to the repository `owner/repo`. */
  datatype Call =
    | GetCommitSha(owner: string, repo: string, branch: string)
    | CreateBranch(owner: string, repo: string, branch: string, sha: string)
    | UpsertFile(owner: string, repo: string, branch: string, path: string, message: string,
                 content: string, committer: Option<Committer>)
    | CreatePullRequest(owner: string, repo: string, title: string, head: string, base: string,
                        body: Option<string>, assignees: seq<string>, labels: seq<string>)

  /** The service's answer: success with the response data (for
      `GetCommitSha`, the commit SHA), or an error. */
  datatype Reply = Answered(data: string) | Refused(cause: string)

  /** How the service answers a call, given every call made before it. */
  type Oracle = (seq<Call>, Call) -> Reply

  /** The network client. The network itself is not modelled: each call is
      appended to `trace` and answered by `answer`. */
  class Client {
    var trace: seq<Call>
    const answer: Oracle

    constructor (answer: Oracle)
      ensures trace == [] && this.answer == answer
    {
      trace := [];
      this.answer := answer;
    }

    method Send(c: Call) returns (reply: Reply)
      modifies this
      ensures trace == old(trace) + [c]
      ensures reply == answer(old(trace), c)
    {
      reply := answer(trace, c);
      trace := trace + [c];
    }
  }

  /** The fields of a `CreatePullRequestBuilder`, as one value. */
  datatype PullRequestFields = PullRequestFields(
    owner: string, repo: string, title: string, body: Option<string>,
    labels: Option<seq<string>>, assignees: Option<seq<string>>,
    committer: Option<Committer>, base: Option<string>, head: Option<string>)

  /** The request `execute` sends for builder fields `f`: owner, repository,
      title and body as set, head and base unwrapped, and the assignee and label
      lists as set or empty when never set. The committer is not sent. */
  function ExecuteCall(f: PullRequestFields): (c: Call)
    requires f.head.Some? && f.base.Some?
    ensures c.CreatePullRequest?
    ensures c.owner == f.owner && c.repo == f.repo && c.title == f.title && c.body == f.body
    ensures c.head == f.head.value && c.base == f.base.value
    ensures f.assignees.Some? ==> c.assignees == f.assignees.value
    ensures f.assignees.None? ==> c.assignees == []
    ensures f.labels.Some? ==> c.labels == f.labels.value
    ensures f.labels.None? ==> c.labels == []
  {
    CreatePullRequest(f.owner, f.repo, f.title, f.head.value, f.base.value, f.body,
                      f.assignees.GetOr([]), f.labels.GetOr([]))
  }

  /** The committer stored in the builder has no effect on the request. */
  lemma ExecuteIgnoresCommitter(f: PullRequestFields, c: Option<Committer>)
    requires f.head.Some? && f.base.Some?
    ensures ExecuteCall(f.(committer := c)) == ExecuteCall(f)
  {
  }

  class CreatePullRequestBuilder {
    var owner: string
    var repo: string
    var title: string
    var body: Option<string>
    var labels: Option<seq<string>>
    var assignees: Option<seq<string>>
    var committer: Option<Committer>
    var base: Option<string>
    var head: Option<string>

    function Fields(): PullRequestFields
      reads this
    {
      PullRequestFields(owner, repo, title, body, labels, assignees, committer, base, head)
    }

    /** `new(owner, repo)`: an empty title and nothing else set. */
    constructor (owner: string, repo: string)
      ensures Fields() == PullRequestFields(owner, repo, "", None, None, None, None, None, None)
    {
      this.owner := owner;
      this.repo := repo;
      title := "";
      body := None;
      labels := None;
      assignees := None;
      committer := None;
      base := None;
      head := None;
    }

    method Title(title: string)
      modifies this
      ensures Fields() == old(Fields()).(title := title)
    {
      this.title := title;
    }

    method Body(body: string)
      modifies this
      ensures Fields() == old(Fields()).(body := Some(body))
    {
      this.body := Some(body);
    }

    method Labels(labels: seq<string>)
      modifies this
      ensures Fields() == old(Fields()).(labels := Some(labels))
    {
      this.labels := Some(labels);
    }

    method Assignees(assignees: seq<string>)
      modifies this
      ensures Fields() == old(Fields()).(assignees := Some(assignees))
    {
      this.assignees := Some(assignees);
    }

    method SetCommitter(committer: Committer)
      modifies this
      ensures Fields() == old(Fields()).(committer := Some(committer))
    {
      this.committer := Some(committer);
    }

    method Base(base: string)
      modifies this
      ensures Fields() == old(Fields()).(base := Some(base))
    {
      this.base := Some(base);
    }

    method Head(head: string)
      modifies this
      ensures Fields() == old(Fields()).(head := Some(head))
    {
      this.head := Some(head);
    }

    /** `execute`: panics unless head and base were set; sends one request. */
    method Execute(client: Client) returns (reply: Reply)
      requires head.Some? && base.Some?
      modifies client
      ensures client.trace == old(client.trace) + [ExecuteCall(Fields())]
      ensures reply == client.answer(old(client.trace), ExecuteCall(Fields()))
    {
      reply := client.Send(CreatePullRequest(owner, repo, title, head.value, base.value, body,
                                             assignees.GetOr([]), labels.GetOr([])));
    }
  }

  /** Setting the title twice keeps only the second value. */
  method TitleLastWriteWins(b: CreatePullRequestBuilder, t1: string, t2: string)
    modifies b
    ensures b.Fields() == old(b.Fields()).(title := t2)
  {
    b.Title(t1);
    b.Title(t2);
  }
}
