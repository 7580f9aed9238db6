/** The linker's workflow (`run` and its three helpers): which calls to the
    hosting platform's REST API it attempts, in what order and with which
    arguments. The platform is abstracted as the answers it would give, and
    the client object records every call attempted on it. */
module Workflow {
  import opened JsText
  import opened Linker

  /** The invoking event: its ref and the repository it belongs to. */
  datatype Context = Context(ref: string, owner: string, repo: string)

  /** What a pull-request lookup returns: the head and base branch names. */
  datatype PullInfo = PullInfo(head: string, base: string)

  /** The result of one remote call: its data, or the error it was rejected with. */
  datatype Outcome<T> = Ok(value: T) | Failed

  /** The answers the platform gives, one per endpoint, keyed by the number
      the call names (and, for the two writes, by the text they send). The
      outcomes of the two writes are part of the service but are never looked
      at by the workflow. */
  datatype Api = Api(
    pullsGet: MaybeString -> Outcome<PullInfo>,
    createComment: (MaybeString, string) -> Outcome<()>,
    issuesGet: string -> Outcome<string>,
    pullsUpdate: (MaybeString, string) -> Outcome<()>)

  /** One attempted remote call with its arguments. `pullNumber` is the
      pull-request number the call targets (for a comment, the endpoint's
      `issue_number` argument, which is the pull number). */
  datatype Call =
    | PullsGet(owner: string, repo: string, pullNumber: MaybeString)
    | CreateComment(owner: string, repo: string, pullNumber: MaybeString, body: string)
    | IssuesGet(owner: string, repo: string, issueNumber: string)
    | PullsUpdate(owner: string, repo: string, pullNumber: MaybeString, title: string)

  /** The title text `getIssueTitle` holds after the lookup: the issue's
      title, or `undefined` when the lookup failed. */
  function FetchedTitle(r: Outcome<string>): (t: MaybeString)
    ensures t.Defined? <==> r.Ok?
    ensures r.Ok? ==> t == Defined(r.value)
  {
    match r
    case Ok(title) => Defined(title)
    case Failed => Undefined
  }

  /** The calls the workflow attempts, stated by cases on the four decisions:
      a pull-request ref, a successful pull lookup, a release base branch and
      an issue number in the head branch. */
  function Plan(ctx: Context, api: Api): seq<Call> {
    match Classify(ctx.ref)
    case NotPullRequest => []
    case PullRequest(pull) =>
      var lookup := [PullsGet(ctx.owner, ctx.repo, pull)];
      match api.pullsGet(pull)
      case Failed => lookup
      case Ok(info) =>
        if !IsReleaseBranch(info.base) then lookup
        else
          match MatchIssueBranch(info.head)
          case None => lookup
          case Some(issue) =>
            lookup + [
              CreateComment(ctx.owner, ctx.repo, pull, CommentBody(issue)),
              IssuesGet(ctx.owner, ctx.repo, issue),
              PullsUpdate(ctx.owner, ctx.repo, pull, DerivedTitle(FetchedTitle(api.issuesGet(issue)), issue))
            ]
  }

  /** The REST client: it answers from `api` and records each call attempted. */
  class Client {
    const api: Api
    var calls: seq<Call>

    constructor (api: Api)
      ensures this.api == api && calls == []
    {
      this.api := api;
      calls := [];
    }

    method GetPull(owner: string, repo: string, pullNumber: MaybeString) returns (r: Outcome<PullInfo>)
      modifies this
      ensures calls == old(calls) + [PullsGet(owner, repo, pullNumber)]
      ensures r == api.pullsGet(pullNumber)
    {
      calls := calls + [PullsGet(owner, repo, pullNumber)];
      r := api.pullsGet(pullNumber);
    }

    method CreateIssueComment(owner: string, repo: string, issueNumber: MaybeString, body: string)
      returns (r: Outcome<()>)
      modifies this
      ensures calls == old(calls) + [CreateComment(owner, repo, issueNumber, body)]
      ensures r == api.createComment(issueNumber, body)
    {
      calls := calls + [CreateComment(owner, repo, issueNumber, body)];
      r := api.createComment(issueNumber, body);
    }

    method GetIssue(owner: string, repo: string, issueNumber: string) returns (r: Outcome<string>)
      modifies this
      ensures calls == old(calls) + [IssuesGet(owner, repo, issueNumber)]
      ensures r == api.issuesGet(issueNumber)
    {
      calls := calls + [IssuesGet(owner, repo, issueNumber)];
      r := api.issuesGet(issueNumber);
    }

    method UpdatePull(owner: string, repo: string, pullNumber: MaybeString, title: string)
      returns (r: Outcome<()>)
      modifies this
      ensures calls == old(calls) + [PullsUpdate(owner, repo, pullNumber, title)]
      ensures r == api.pullsUpdate(pullNumber, title)
    {
      calls := calls + [PullsUpdate(owner, repo, pullNumber, title)];
      r := api.pullsUpdate(pullNumber, title);
    }
  }

  /** `addCommentWithIssueNumber`: one comment on the pull request; its
      outcome is dropped. */
  method AddCommentWithIssueNumber(client: Client, owner: string, repo: string,
                                   pullNumber: MaybeString, issueNumber: string)
    modifies client
    ensures client.calls == old(client.calls) + [CreateComment(owner, repo, pullNumber, CommentBody(issueNumber))]
  {
    var _ := client.CreateIssueComment(owner, repo, pullNumber, CommentBody(issueNumber));
  }

  /** `getIssueTitle`: looks the issue up and builds the new title, whose
      title part stays `undefined` when the lookup fails. */
  method GetIssueTitle(client: Client, owner: string, repo: string, issueNumber: string)
    returns (newTitle: string)
    modifies client
    ensures client.calls == old(client.calls) + [IssuesGet(owner, repo, issueNumber)]
    ensures newTitle == DerivedTitle(FetchedTitle(client.api.issuesGet(issueNumber)), issueNumber)
  {
    var issueTitle := Undefined;
    var r := client.GetIssue(owner, repo, issueNumber);
    if r.Ok? {
      issueTitle := Defined(r.value);
    }
    newTitle := DerivedTitle(issueTitle, issueNumber);
  }

  /** `changePullTitle`: one title update; its outcome is dropped. */
  method ChangePullTitle(client: Client, owner: string, repo: string,
                         pullNumber: MaybeString, newTitle: string)
    modifies client
    ensures client.calls == old(client.calls) + [PullsUpdate(owner, repo, pullNumber, newTitle)]
  {
    var _ := client.UpdatePull(owner, repo, pullNumber, newTitle);
  }

  /** `run`: the sequence of checks with early returns, then the comment, the
      title lookup and the title update. */
  method Run(ctx: Context, client: Client)
    modifies client
    ensures client.calls == old(client.calls) + Plan(ctx, client.api)
  {
    if At(Split(ctx.ref), 1) != Defined("pull") {
      return;
    }
    var pullNumber := At(Split(ctx.ref), 2);
    var issueNumber: MaybeString := Undefined;

    var pull := client.GetPull(ctx.owner, ctx.repo, pullNumber);
    if pull.Failed? {
      return;
    }
    var branchName := pull.value.head;
    var baseBranch := pull.value.base;
    if At(Split(baseBranch), 0) != Defined("release") {
      return;
    }

    var m := MatchIssueBranch(branchName);
    if m.None? {
      return;
    }
    issueNumber := Defined(m.value);

    AddCommentWithIssueNumber(client, ctx.owner, ctx.repo, pullNumber, issueNumber.text);
    var newTitle := GetIssueTitle(client, ctx.owner, ctx.repo, issueNumber.text);
    ChangePullTitle(client, ctx.owner, ctx.repo, pullNumber, newTitle);
  }

  // ---------------------------------------------------------------------
  // Properties of the workflow

  /** No remote call at all unless piece 1 of the ref is "pull", and at least
      the pull lookup when it is. */
  lemma NoCallsIffNotPull(ctx: Context, api: Api)
    ensures Plan(ctx, api) == [] <==> At(Split(ctx.ref), 1) != Defined("pull")
  {
  }

  /** A ref without a second piece never leads to a remote call. */
  lemma ShortRefNoCalls(ctx: Context, api: Api)
    requires Slash !in ctx.ref
    ensures Plan(ctx, api) == []
  {
    ShortRefIsNotPull(ctx.ref);
  }

  /** Every call goes to the event's repository, and every call about the
      pull request carries piece 2 of the ref as its number. */
  lemma CallsUseRefPullNumber(ctx: Context, api: Api)
    ensures forall c :: c in Plan(ctx, api) ==> c.owner == ctx.owner && c.repo == ctx.repo
    ensures forall c :: c in Plan(ctx, api) && !c.IssuesGet? ==> c.pullNumber == At(Split(ctx.ref), 2)
  {
    var p := Plan(ctx, api);
    if Classify(ctx.ref).PullRequest? {
      var pull := Classify(ctx.ref).pullNumber;
      assert pull == At(Split(ctx.ref), 2);
      assert p[0] == PullsGet(ctx.owner, ctx.repo, pull);
      forall c | c in p
        ensures c.owner == ctx.owner && c.repo == ctx.repo
        ensures !c.IssuesGet? ==> c.pullNumber == pull
      {
        var i :| 0 <= i < |p| && p[i] == c;
      }
    }
  }

  /** A failed pull lookup is the last call. */
  lemma PullLookupFailureStops(ctx: Context, api: Api)
    requires Classify(ctx.ref).PullRequest?
    requires api.pullsGet(Classify(ctx.ref).pullNumber).Failed?
    ensures Plan(ctx, api) == [PullsGet(ctx.owner, ctx.repo, At(Split(ctx.ref), 2))]
  {
  }

  /** Whenever the first call is followed by more, the pull lookup succeeded,
      its base branch is "release" or starts with "release/", and its head
      branch names an issue. */
  lemma WritesOnlyForReleaseIssueBranches(ctx: Context, api: Api)
    requires |Plan(ctx, api)| > 1
    ensures Classify(ctx.ref).PullRequest?
    ensures var info := api.pullsGet(Classify(ctx.ref).pullNumber);
      info.Ok? &&
      (info.value.base == "release" || (|info.value.base| >= 8 && info.value.base[..8] == "release/")) &&
      MatchIssueBranch(info.value.head).Some?
  {
    var info := api.pullsGet(Classify(ctx.ref).pullNumber);
    ReleaseBranchIff(info.value.base);
  }

  /** A base branch outside the release family stops after the pull lookup. */
  lemma NonReleaseBaseOnlyLookup(ctx: Context, api: Api, info: PullInfo)
    requires Classify(ctx.ref).PullRequest?
    requires api.pullsGet(Classify(ctx.ref).pullNumber) == Ok(info)
    requires info.base != "release" && !(|info.base| >= 8 && info.base[..8] == "release/")
    ensures Plan(ctx, api) == [PullsGet(ctx.owner, ctx.repo, At(Split(ctx.ref), 2))]
  {
    ReleaseBranchIff(info.base);
  }

  /** The issue number comes from the head branch alone: two lookups with the
      same head and release bases lead to the same calls, and a head without
      an issue number stops after the lookup. */
  lemma IssueNumberFromHeadOnly(ctx: Context, api1: Api, api2: Api, head: string, base1: string, base2: string)
    requires Classify(ctx.ref).PullRequest?
    requires api1.pullsGet(Classify(ctx.ref).pullNumber) == Ok(PullInfo(head, base1))
    requires api2.pullsGet(Classify(ctx.ref).pullNumber) == Ok(PullInfo(head, base2))
    requires IsReleaseBranch(base1) && IsReleaseBranch(base2)
    requires forall i :: api1.issuesGet(i) == api2.issuesGet(i)
    ensures Plan(ctx, api1) == Plan(ctx, api2)
    ensures MatchIssueBranch(head).None? ==> |Plan(ctx, api1)| == 1
    ensures forall c :: c in Plan(ctx, api1) && c.IssuesGet? ==> MatchIssueBranch(head) == Some(c.issueNumber)
  {
  }

  /** On the full path the calls are the lookup, the comment on the pull
      request naming the issue, the issue lookup and the title update, in
      that order. */
  lemma FullPath(ctx: Context, api: Api, info: PullInfo, issue: string)
    requires Classify(ctx.ref).PullRequest?
    requires api.pullsGet(Classify(ctx.ref).pullNumber) == Ok(info)
    requires IsReleaseBranch(info.base)
    requires MatchIssueBranch(info.head) == Some(issue)
    ensures var pull := At(Split(ctx.ref), 2);
      Plan(ctx, api) == [
        PullsGet(ctx.owner, ctx.repo, pull),
        CreateComment(ctx.owner, ctx.repo, pull, "This pull request is for issue #" + issue + "."),
        IssuesGet(ctx.owner, ctx.repo, issue),
        PullsUpdate(ctx.owner, ctx.repo, pull, ToText(FetchedTitle(api.issuesGet(issue))) + " (close #" + issue + ")")
      ]
    ensures api.issuesGet(issue).Ok? ==>
      Plan(ctx, api)[3].title == api.issuesGet(issue).value + " (close #" + issue + ")"
  {
    var pull := At(Split(ctx.ref), 2);
    var lookup := [PullsGet(ctx.owner, ctx.repo, pull)];
    var writes := [
      CreateComment(ctx.owner, ctx.repo, pull, CommentBody(issue)),
      IssuesGet(ctx.owner, ctx.repo, issue),
      PullsUpdate(ctx.owner, ctx.repo, pull, DerivedTitle(FetchedTitle(api.issuesGet(issue)), issue))
    ];
    assert Plan(ctx, api) == lookup + writes;
    var t := ToText(FetchedTitle(api.issuesGet(issue)));
    assert DerivedTitle(FetchedTitle(api.issuesGet(issue)), issue) == t + " (close #" + issue + ")";
    assert lookup + writes == [lookup[0], writes[0], writes[1], writes[2]];
  }

  /** A failed issue lookup still sends the title update, with the title
      text "undefined". */
  lemma IssueLookupFailureStillUpdates(ctx: Context, api: Api, info: PullInfo, issue: string)
    requires Classify(ctx.ref).PullRequest?
    requires api.pullsGet(Classify(ctx.ref).pullNumber) == Ok(info)
    requires IsReleaseBranch(info.base)
    requires MatchIssueBranch(info.head) == Some(issue)
    requires api.issuesGet(issue).Failed?
    ensures |Plan(ctx, api)| == 4
    ensures Plan(ctx, api)[3] == PullsUpdate(ctx.owner, ctx.repo, At(Split(ctx.ref), 2), "undefined (close #" + issue + ")")
  {
    FullPath(ctx, api, info, issue);
    assert ToText(FetchedTitle(api.issuesGet(issue))) == "undefined";
  }

  /** The outcomes of the comment and of the title update never change what
      is attempted: the title update is attempted whatever happened to the
      comment. */
  lemma WriteOutcomesIrrelevant(ctx: Context, api1: Api, api2: Api)
    requires forall n :: api1.pullsGet(n) == api2.pullsGet(n)
    requires forall i :: api1.issuesGet(i) == api2.issuesGet(i)
    ensures Plan(ctx, api1) == Plan(ctx, api2)
  {
  }

  /** The sent title names the issue the comment names, and the two can be
      told apart from any other issue's. */
  lemma TitleAndCommentAgree(ctx: Context, api: Api)
    requires |Plan(ctx, api)| == 4
    ensures var p := Plan(ctx, api);
      p[1].CreateComment? && p[2].IssuesGet? && p[3].PullsUpdate? &&
      p[1].body == CommentBody(p[2].issueNumber) &&
      forall n :: n != [] && AllDigits(n) && n != p[2].issueNumber ==>
        p[3].title != DerivedTitle(FetchedTitle(api.issuesGet(n)), n)
  {
    var p := Plan(ctx, api);
    var info := api.pullsGet(Classify(ctx.ref).pullNumber).value;
    var issue := MatchIssueBranch(info.head).value;
    MatchIssueBranchSound(info.head, issue);
    forall n | n != [] && AllDigits(n) && n != issue
      ensures p[3].title != DerivedTitle(FetchedTitle(api.issuesGet(n)), n)
    {
      if p[3].title == DerivedTitle(FetchedTitle(api.issuesGet(n)), n) {
        DerivedTitleInjective(FetchedTitle(api.issuesGet(issue)), issue, FetchedTitle(api.issuesGet(n)), n);
      }
    }
  }

  /** The worked example: ref "refs/pull/19/merge", base "release/2.0", head
      "issue/42-typo" and issue #42 titled "Fix typo". */
  lemma WorkedExample(ctx: Context, api: Api)
    requires ctx.ref == "refs/pull/19/merge"
    requires api.pullsGet(Defined("19")) == Ok(PullInfo("issue/42-typo", "release/2.0"))
    requires api.issuesGet("42") == Ok("Fix typo")
    ensures Plan(ctx, api) == [
      PullsGet(ctx.owner, ctx.repo, Defined("19")),
      CreateComment(ctx.owner, ctx.repo, Defined("19"), "This pull request is for issue #42."),
      IssuesGet(ctx.owner, ctx.repo, "42"),
      PullsUpdate(ctx.owner, ctx.repo, Defined("19"), "Fix typo (close #42)")
    ]
  {
    PullRefExample();
    WorkedExampleCalls(ctx, api, At(Split(ctx.ref), 2));
    CommentBodyExample();
    DerivedTitleExamples();
  }

  /** The worked example's calls with the texts still unevaluated. It takes
      the pull number as a parameter so that the literal ref is unfolded only in
      `WorkedExample`; the facts about the two literal branch names are called
      in here. */
  lemma WorkedExampleCalls(ctx: Context, api: Api, pull: MaybeString)
    requires Classify(ctx.ref) == PullRequest(pull)
    requires api.pullsGet(pull) == Ok(PullInfo("issue/42-typo", "release/2.0"))
    ensures Plan(ctx, api) == [
      PullsGet(ctx.owner, ctx.repo, pull),
      CreateComment(ctx.owner, ctx.repo, pull, CommentBody("42")),
      IssuesGet(ctx.owner, ctx.repo, "42"),
      PullsUpdate(ctx.owner, ctx.repo, pull, DerivedTitle(FetchedTitle(api.issuesGet("42")), "42"))
    ]
  {
    ReleaseBranchExamples();
    MatchIssueBranchExample42();
    FullPath(ctx, api, PullInfo("issue/42-typo", "release/2.0"), "42");
  }
}
