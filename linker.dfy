/** The decisions the linker makes on strings: whether the triggering ref is a
    pull-request ref and which pull it names, whether a base branch is a
    release branch, which issue a head branch names, and the two texts it
    writes (the comment body and the new pull-request title). */
module Linker {
  import opened JsText

  /** What the triggering ref says about the event. */
  datatype Event = PullRequest(pullNumber: MaybeString) | NotPullRequest

  /** The ref of a pull-request event looks like "refs/pull/19/merge": the
      event is a pull-request event exactly when piece 1 is "pull", and piece
      2 (possibly `undefined`) is the pull number. */
  function Classify(ref: string): Event {
    var parts := Split(ref);
    if At(parts, 1) != Defined("pull") then NotPullRequest else PullRequest(At(parts, 2))
  }

  /** The base branch must have "release" as its first piece. */
  predicate IsReleaseBranch(base: string) {
    At(Split(base), 0) == Defined("release")
  }

  /** The literal start of the pattern `^issue\/(\d+)`. */
  const IssuePrefix: string := "issue/"

  /** `\d` in a JavaScript regular expression without the `u` flag. */
  predicate IsDigit(c: char) {
    '0' <= c <= '9'
  }

  predicate AllDigits(d: string) {
    forall i :: 0 <= i < |d| ==> IsDigit(d[i])
  }

  /** The longest run of digits at the start of `s` (what a greedy `\d*` takes). */
  function DigitRun(s: string): (d: string)
    ensures d <= s
    ensures AllDigits(d)
    ensures |d| == |s| || !IsDigit(s[|d|])
  {
    if s != [] && IsDigit(s[0]) then [s[0]] + DigitRun(s[1..]) else []
  }

  datatype Option<T> = None | Some(value: T)

  /** `branchName.match(/^issue\/(\d+)/)[1]`, or `None` where `match` yields
      null (and indexing it throws). */
  function MatchIssueBranch(branch: string): Option<string> {
    if IssuePrefix <= branch then
      var d := DigitRun(branch[|IssuePrefix|..]);
      if d == [] then None else Some(d)
    else None
  }

  /** The comment's fixed text, naming the issue. */
  function CommentBody(issueNumber: string): string {
    "This pull request is for issue #" + issueNumber + "."
  }

  /** The closing-keyword suffix appended to the issue title. */
  function CloseSuffix(issueNumber: string): string {
    " (close #" + issueNumber + ")"
  }

  /** `${issueTitle} (close #${issueNumber})`, where the title is `undefined`
      when the issue lookup failed. */
  function DerivedTitle(issueTitle: MaybeString, issueNumber: string): string {
    ToText(issueTitle) + CloseSuffix(issueNumber)
  }

  // ---------------------------------------------------------------------
  // The ref classifier

  /** For a ref assembled from slash-free pieces, the event is a pull-request
      event exactly when piece 1 is "pull", and the pull number is piece 2. */
  lemma ClassifyPieces(parts: seq<string>)
    requires |parts| >= 1 && SlashFree(parts)
    ensures Classify(Join(parts)) ==
      if |parts| >= 2 && parts[1] == "pull" then PullRequest(At(parts, 2)) else NotPullRequest
  {
    SplitJoin(parts);
  }

  /** A ref with fewer than two pieces is not a pull-request event (and
      reading its piece 1 is `undefined`, not an error). */
  lemma ShortRefIsNotPull(ref: string)
    requires Slash !in ref
    ensures Classify(ref) == NotPullRequest
  {
    SplitNoSlash(ref);
  }

  /** The usual pull-request ref names its pull number in piece 2. */
  lemma PullRefExample()
    ensures Split("refs/pull/19/merge") == ["refs", "pull", "19", "merge"]
    ensures Classify("refs/pull/19/merge") == PullRequest(Defined("19"))
  {
    var parts := ["refs", "pull", "19", "merge"];
    assert SlashFree(parts);
    assert Join(parts) == "refs/pull/19/merge";
    SplitJoin(parts);
  }

  /** A branch push is not a pull-request event; a bare "refs/pull" is one,
      without a pull number. */
  lemma OtherRefExamples()
    ensures Classify("refs/heads/main") == NotPullRequest
    ensures Classify("pull/7") == NotPullRequest
    ensures Classify("refs/pull") == PullRequest(Undefined)
  {
    assert Join(["refs", "heads", "main"]) == "refs/heads/main";
    ClassifyPieces(["refs", "heads", "main"]);
    assert Join(["pull", "7"]) == "pull/7";
    ClassifyPieces(["pull", "7"]);
    assert Join(["refs", "pull"]) == "refs/pull";
    ClassifyPieces(["refs", "pull"]);
  }

  // ---------------------------------------------------------------------
  // The release-branch check

  /** A base branch is a release branch exactly when it is "release" itself
      or starts with "release/". */
  lemma ReleaseBranchIff(base: string)
    ensures IsReleaseBranch(base) <==>
      base == "release" || (|base| >= 8 && base[..8] == "release/")
  {
    var parts := Split(base);
    if parts[0] == "release" && |parts| > 1 {
      assert base == "release" + [Slash] + Join(parts[1..]);
    }
    if base == "release" {
      SplitNoSlash(base);
    } else if |base| >= 8 && base[..8] == "release/" {
      var u := base[8..];
      assert base == "release" + ([Slash] + u);
      SplitAfterWord("release", [Slash] + u);
      SplitAfterSlash(u);
      assert parts[0] == "release" + [];
    }
  }

  lemma ReleaseBranchExamples()
    ensures IsReleaseBranch("release")
    ensures IsReleaseBranch("release/2.0")
  {
    ReleaseBranchIff("release");
    ReleaseBranchIff("release/2.0");
    assert "release/2.0"[..8] == "release/";
  }

  lemma NotReleaseBranchExamples()
    ensures !IsReleaseBranch("releases/1")
    ensures !IsReleaseBranch("feature/release")
    ensures !IsReleaseBranch("")
  {
    ReleaseBranchIff("releases/1");
    assert "releases/1"[7] != "release/"[7];
    ReleaseBranchIff("feature/release");
    assert "feature/release"[0] != "release/"[0];
    ReleaseBranchIff("");
  }

  // ---------------------------------------------------------------------
  // The issue-number extractor

  /** The match succeeds exactly when the branch starts with "issue/"
      immediately followed by a digit. */
  lemma MatchIssueBranchIff(branch: string)
    ensures MatchIssueBranch(branch).Some? <==>
      |branch| > |IssuePrefix| && IssuePrefix <= branch && IsDigit(branch[|IssuePrefix|])
  {
  }

  /** What a successful match yields: a non-empty digit run right after the
      prefix, which is the longest such run. */
  lemma MatchIssueBranchSound(branch: string, d: string)
    requires MatchIssueBranch(branch) == Some(d)
    ensures d != [] && AllDigits(d)
    ensures IssuePrefix + d <= branch
    ensures |branch| == |IssuePrefix| + |d| || !IsDigit(branch[|IssuePrefix| + |d|])
  {
    var rest := branch[|IssuePrefix|..];
    assert branch == IssuePrefix + rest;
    assert d <= rest;
  }

  /** Conversely, a branch of the form "issue/" + digits + a tail that does not
      start with a digit yields exactly those digits, whatever the tail. */
  lemma MatchIssueBranchComplete(d: string, tail: string)
    requires d != [] && AllDigits(d)
    requires tail == [] || !IsDigit(tail[0])
    ensures MatchIssueBranch(IssuePrefix + d + tail) == Some(d)
  {
    var branch := IssuePrefix + d + tail;
    assert branch[|IssuePrefix|..] == d + tail;
    DigitRunOf(d, tail);
  }

  lemma {:induction false} DigitRunOf(d: string, tail: string)
    requires AllDigits(d)
    requires tail == [] || !IsDigit(tail[0])
    ensures DigitRun(d + tail) == d
  {
    if d != [] {
      assert (d + tail)[1..] == d[1..] + tail;
      assert AllDigits(d[1..]) by {
        forall i | 0 <= i < |d[1..]| ensures IsDigit(d[1..][i]) {
          assert d[1..][i] == d[i + 1];
        }
      }
      DigitRunOf(d[1..], tail);
      assert [d[0]] + d[1..] == d;
    } else {
      assert d + tail == tail;
    }
  }

  lemma MatchIssueBranchExamples()
    ensures MatchIssueBranch("issue/123-fix") == Some("123")
    ensures MatchIssueBranch("issue/7") == Some("7")
  {
    MatchIssueBranchComplete("123", "-fix");
    assert "issue/123-fix" == IssuePrefix + "123" + "-fix";
    MatchIssueBranchComplete("7", "");
    assert "issue/7" == IssuePrefix + "7" + "";
  }

  lemma MatchIssueBranchExample42()
    ensures MatchIssueBranch("issue/42-typo") == Some("42")
  {
    MatchIssueBranchComplete("42", "-typo");
    assert "issue/42-typo" == IssuePrefix + "42" + "-typo";
  }

  lemma NoMatchExamples()
    ensures MatchIssueBranch("issue-123") == None
    ensures MatchIssueBranch("feature/issue/5") == None
    ensures MatchIssueBranch("issue/") == None
    ensures MatchIssueBranch("issue/x1") == None
  {
    MatchIssueBranchIff("issue-123");
    assert "issue-123"[5] != IssuePrefix[5];
    MatchIssueBranchIff("feature/issue/5");
    assert "feature/issue/5"[0] != IssuePrefix[0];
    MatchIssueBranchIff("issue/");
    MatchIssueBranchIff("issue/x1");
  }

  // ---------------------------------------------------------------------
  // The text builders

  /** The comment names its issue unambiguously: different issue numbers give
      different comments. */
  lemma CommentBodyInjective(a: string, b: string)
    requires CommentBody(a) == CommentBody(b)
    ensures a == b
  {
    var p := "This pull request is for issue #";
    assert CommentBody(a)[|p|..|CommentBody(a)| - 1] == a;
    assert CommentBody(b)[|p|..|CommentBody(b)| - 1] == b;
  }

  lemma CommentBodyExample()
    ensures CommentBody("42") == "This pull request is for issue #42."
  {
  }

  /** Where the pieces of a derived title sit, counted from its end: the
      title text, the '#' before the number, the number, and, for `k` from 1
      to the number's length, the number's k-th character from the end at
      position `k + 1` from the end. `k` is a free position, so that callers
      can compare two layouts of one string at a position of their choosing. */
  lemma DerivedTitleLayout(t: string, n: string, k: nat)
    requires 1 <= k
    ensures var s := t + CloseSuffix(n);
      |s| == |t| + 10 + |n| &&
      s[|s| - 2 - |n|] == '#' &&
      s[..|t|] == t &&
      s[|t| + 9..|s| - 1] == n &&
      (k <= |n| ==> s[|s| - 1 - k] == n[|n| - k])
  {
  }

  /** For digit-only issue numbers the derived title determines both the
      issue number and the title text it was built from. */
  lemma DerivedTitleInjective(t1: MaybeString, n1: string, t2: MaybeString, n2: string)
    requires n1 != [] && AllDigits(n1) && n2 != [] && AllDigits(n2)
    requires DerivedTitle(t1, n1) == DerivedTitle(t2, n2)
    ensures n1 == n2 && ToText(t1) == ToText(t2)
  {
    var a, b := ToText(t1), ToText(t2);
    // The '#' before the shorter number would otherwise face a digit of the longer one.
    DerivedTitleLayout(a, n1, |n2| + 1);
    DerivedTitleLayout(b, n2, |n1| + 1);
    assert |n1| == |n2|;
  }

  lemma DerivedTitleExamples()
    ensures DerivedTitle(Defined("Fix typo"), "42") == "Fix typo (close #42)"
    ensures DerivedTitle(Undefined, "42") == "undefined (close #42)"
  {
  }
}
