# pull-request-helper-action, modelled in Dafny

The action links a pull request to the issue it resolves. It runs on a
triggering event. When the event is a pull-request event whose base branch is
a release branch and whose head branch is named `issue/<N>...`, it comments
`This pull request is for issue #N.` on the pull request. It then looks the
issue up and retitles the pull request `<issue title> (close #N)`.

The model has three modules:

- `JsText` (`js_text.dfy`) holds the JavaScript semantics the decisions rest on.
  - `Split` is `split("/")`. It keeps empty pieces and always yields at least one piece.
  - `At` is array indexing. Past the end it yields `undefined` (`MaybeString.Undefined`).
  - `ToText` is template-literal interpolation. `undefined` becomes the text `"undefined"`.
- `Linker` (`linker.dfy`) holds the pure decisions of `index.js`.
  - `Classify` is the ref check and pull number (lines 14 and 19).
  - `IsReleaseBranch` is the base-branch check (line 32).
  - `MatchIssueBranch` is a hand-written matcher for `^issue\/(\d+)`, with `\d` as ASCII `0`–`9` (lines 4 and 39). `DigitRun` is the greedy digit run inside it.
  - `CommentBody` and `DerivedTitle` are the two template strings (lines 71 and 93).
- `Workflow` (`workflow.dfy`) holds the sequencing.
  - The platform's REST API is a value `Api`. It records the answer each endpoint would give, keyed by the number the call names and, for the two writes, by the text they send.
  - A `Client` object answers from that value and records every attempted call in its `calls` sequence. This stands in for the Octokit client the source passes to each helper.
  - `Run`, `AddCommentWithIssueNumber`, `GetIssueTitle` and `ChangePullTitle` are imperative methods. They follow the source's early returns and its mutable locals (`issueNumber`, `issueTitle`).
  - `Run` is proved to append exactly `Plan(ctx, api)` to the client's calls. `Plan` is a function that states the attempted calls by cases on the four decisions. The lemmas about `Plan` state the workflow's properties.

Three behaviours of `index.js` that are easy to miss, kept as written:

- A two-piece ref such as `refs/pull` is a pull-request event whose pull
  number is `undefined`, and the pull lookup is attempted with it
  (`OtherRefExamples`). Only piece 1 is compared with `"pull"`.
- The calls are started in a fixed order: `pulls.get`, `createComment`,
  `issues.get`, `pulls.update` (`FullPath`).
- A failed issue lookup gives the title `undefined (close #N)`, and the
  update is still sent (`IssueLookupFailureStillUpdates`).

## Model

| member | source | states |
|---|---|---|
| `JsText.Split` | index.js:14 | the pieces of `split("/")`: at least one, none containing `/`, rejoining with `/` to the input |
| `JsText.SplitJoin` | index.js:14 | splitting undoes joining for any slash-free pieces, empty pieces included |
| `JsText.SplitUnique` | index.js:14 | `Split` is the only slash-free decomposition of a string (with `Split`'s contract, an if-and-only-if) |
| `JsText.SplitNoSlash` | index.js:14 | a string with no `/` splits into itself alone |
| `JsText.At` | index.js:14 | indexing a split result gives the piece at that index when it exists, and `undefined` exactly when the index is past the end |
| `JsText.ToText` | index.js:93 | a defined value interpolates as its own text |
| `Linker.Classify` | index.js:14-19 | no contract; specified by `ClassifyPieces`, `ShortRefIsNotPull`, `PullRefExample` and `OtherRefExamples` |
| `Linker.IsReleaseBranch` | index.js:32 | no contract; specified by `ReleaseBranchIff` and the two release-branch example lemmas |
| `Linker.MatchIssueBranch` | index.js:39 | no contract; specified by `MatchIssueBranchIff`, `MatchIssueBranchSound` and `MatchIssueBranchComplete` |
| `Linker.CommentBody` | index.js:71 | no contract; specified by `CommentBodyInjective`, `CommentBodyExample` and the literal text in `FullPath` |
| `Linker.DerivedTitle` | index.js:93 | no contract; specified by `DerivedTitleInjective`, `DerivedTitleExamples` and the literal text in `FullPath` |
| `Linker.ClassifyPieces` | index.js:14-19 | a ref made of slash-free pieces is a pull-request event iff piece 1 is `pull`, and the pull number is piece 2 (possibly `undefined`) |
| `Linker.ShortRefIsNotPull` | index.js:14-17 | a ref with fewer than two pieces is not a pull-request event, and reading it does not fail |
| `Linker.PullRefExample` | index.js:13-19 | `refs/pull/19/merge` splits into four pieces and names pull `19` |
| `Linker.OtherRefExamples` | index.js:14-19 | `refs/heads/main` and `pull/7` are not pull-request events; `refs/pull` is one with an `undefined` pull number |
| `Linker.ReleaseBranchIff` | index.js:31-35 | a base branch passes iff it is `release` or starts with `release/` |
| `Linker.ReleaseBranchExamples` | index.js:32 | `release` and `release/2.0` pass |
| `Linker.NotReleaseBranchExamples` | index.js:32 | `releases/1`, `feature/release` and the empty name do not pass |
| `Linker.DigitRun` | index.js:4 | the result is a prefix of the input, all digits, and the longest such prefix |
| `Linker.MatchIssueBranchIff` | index.js:39 | the match succeeds iff the branch starts with `issue/` immediately followed by a digit |
| `Linker.MatchIssueBranchSound` | index.js:4 | a match is a non-empty digit run right after `issue/`, not followed by another digit |
| `Linker.MatchIssueBranchComplete` | index.js:4 | `issue/` + digits + any tail not starting with a digit yields exactly those digits |
| `Linker.MatchIssueBranchExamples` | index.js:38-39 | `issue/123-fix` yields `123` and `issue/7` yields `7` |
| `Linker.MatchIssueBranchExample42` | index.js:38-39 | `issue/42-typo` yields `42` |
| `Linker.NoMatchExamples` | index.js:39-44 | `issue-123`, `feature/issue/5`, `issue/` and `issue/x1` yield no issue number |
| `Linker.CommentBodyInjective` | index.js:71 | different issue numbers give different comment bodies |
| `Linker.CommentBodyExample` | index.js:71 | the comment for issue 42 is `This pull request is for issue #42.` |
| `Linker.DerivedTitleInjective` | index.js:93 | for digit-only issue numbers, the derived title determines both the issue number and the title text |
| `Linker.DerivedTitleExamples` | index.js:80-93 | `Fix typo` and 42 give `Fix typo (close #42)`; a missing title gives `undefined (close #42)` |
| `Workflow.FetchedTitle` | index.js:80-92 | the title variable holds a value exactly when the issue lookup succeeded, and that value is the fetched title |
| `Workflow.Plan` | index.js:6-53 | no contract; the calls `Run` attempts, tied to it by `Run`'s contract and specified by the workflow lemmas below |
| `Workflow.Client.constructor` | index.js:7 | a new client answers from the given service and has recorded no calls |
| `Workflow.Client.GetPull` | index.js:23-27 | records one `pulls.get` call with the repository and pull number, and returns the service's answer for that number |
| `Workflow.Client.CreateIssueComment` | index.js:67-72 | records one `createComment` call with its target number and body, and returns the service's answer |
| `Workflow.Client.GetIssue` | index.js:82-86 | records one `issues.get` call with the issue number, and returns the service's answer |
| `Workflow.Client.UpdatePull` | index.js:98-103 | records one `pulls.update` call with the pull number and title, and returns the service's answer |
| `Workflow.AddCommentWithIssueNumber` | index.js:57-77 | exactly one comment call, on the pull number, with the fixed body naming the issue |
| `Workflow.GetIssueTitle` | index.js:79-94 | exactly one issue lookup; the result is the derived title, with `undefined` as title text when the lookup failed |
| `Workflow.ChangePullTitle` | index.js:96-109 | exactly one title-update call with the given pull number and title |
| `Workflow.Run` | index.js:6-53 | the calls appended to the client's record are exactly `Plan` of the context and service |
| `Workflow.NoCallsIffNotPull` | index.js:14-17 | no remote call at all iff piece 1 of the ref is not `pull` |
| `Workflow.ShortRefNoCalls` | index.js:14-17 | a ref without `/` leads to no remote call |
| `Workflow.CallsUseRefPullNumber` | index.js:19-103 | every call goes to the event's owner and repository; every call about the pull request carries piece 2 of the ref |
| `Workflow.PullLookupFailureStops` | index.js:22-52 | a failed `pulls.get` is the only call: no comment, issue lookup or title update |
| `Workflow.WritesOnlyForReleaseIssueBranches` | index.js:31-44 | anything beyond the first call implies a successful lookup, a `release` base family and an issue number in the head |
| `Workflow.NonReleaseBaseOnlyLookup` | index.js:31-35 | a base branch outside `release`/`release/...` leaves `pulls.get` as the only call |
| `Workflow.IssueNumberFromHeadOnly` | index.js:28-44 | issue numbers come from the head branch only: the base branch beyond the release check changes nothing, and a head without a match stops after the lookup |
| `Workflow.FullPath` | index.js:46-48 | on the full path the calls are `pulls.get`, the comment on the pull number, `issues.get`, `pulls.update`, in that order, with the exact texts; after a successful issue lookup the title sent is `<issue title> (close #N)` |
| `Workflow.IssueLookupFailureStillUpdates` | index.js:80-93 | a failed issue lookup still sends the update, titled `undefined (close #N)` |
| `Workflow.WriteOutcomesIrrelevant` | index.js:46-48 | the outcomes of the comment and title-update calls never change what is attempted, so the title update is attempted whatever the comment outcome |
| `Workflow.TitleAndCommentAgree` | index.js:71-93 | the comment names the looked-up issue, and the title sent names no other digit-only issue number |
| `Workflow.WorkedExample` | index.js:13-103 | ref `refs/pull/19/merge`, base `release/2.0`, head `issue/42-typo` and issue 42 titled `Fix typo` give the four calls with `This pull request is for issue #42.` and `Fix typo (close #42)` |

## Left out

- Octokit, the REST API and the construction of `github.context` (index.js:1-11) are not modelled. The service is the `Api` value of answers. The ref, owner and repository are the `Context` input.
- Loading `dotenv` and the `ACCESS_TOKEN` credential is I/O and has no bearing on the decisions.
- The top-level `run()` call (index.js:55) is not modelled. `Run` is that invocation.
- Console logging is output only and is left out.
- Promises and timing are not modelled. `createComment` and `pulls.update` are never awaited, so their failures never reach the `catch` blocks, and the process may exit before they complete. A rejection left unhandled may also end the process under Node's default policy before `pulls.update` is sent. Each write counts as attempted once it is started. The model keeps only the order in which the calls are started.
- A service answer depends only on the call's number and, for the two writes, its text. It does not depend on owner and repository, which are the same for every call of one invocation.
- Other ways a lookup can fail are folded into `Failed`, for example a response without `head`, `base` or `title` fields. The issue title is always a string. A `null` title, which would print as `null`, is not modelled.
- General JavaScript regular expressions are not modelled. Only the fixed pattern `^issue\/(\d+)` is, by hand.
