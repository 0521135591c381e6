/**
 * The bot's reaction to comments on pull requests and issues: which admin
 * commands it recognises, what it runs, in which order, and which of its
 * outcome comments it posts.
 *
 * Each handler returns the sequence of external actions it takes (calls into
 * the team, deploy-key and linting services, git and GitHub requests,
 * comments). The answers of the outside world it depends on (what the rerender
 * tool does, whether a push is accepted, the fork owner, the number GitHub
 * gives a new pull request) are parameters.
 */
module Commands {
  import opened Wrappers
  import opened Text
  import opened Grammar
  import Linting
  import Teams

  const StagedRepo: string := "staged-extensions"
  const RerenderChange: string := "re-render"
  const RerenderTitle: string := "MNT: rerender"
  const RerenderDone: string := "rerendered the recipe"
  const AdminBranchPrefix: string := "nwb_extensions_admin_"
  const DefaultBranch: string := "master"

  /** A repository the pull-request handler serves: a feedstock or the staging repository. */
  predicate ServesPulls(repoName: string) {
    EndsWith(repoName, Teams.FeedstockSuffix) || repoName == StagedRepo
  }

  /** The staging repository is not a feedstock, so the issue handler never serves it. */
  lemma StagedIsNotFeedstock()
    ensures !EndsWith(StagedRepo, Teams.FeedstockSuffix)
  {
    assert StagedRepo[|StagedRepo| - |Teams.FeedstockSuffix|..] != Teams.FeedstockSuffix by {
      assert StagedRepo[|StagedRepo| - |Teams.FeedstockSuffix|..][0] == 'e';
      assert Teams.FeedstockSuffix[0] == '-';
    }
  }

  // ---------------------------------------------------------------------------
  // Rerendering
  // ---------------------------------------------------------------------------

  /** The local clone the rerender tool runs in; only the head commit of its active branch matters here. */
  class Workspace {
    var head: string

    constructor (head: string)
      ensures this.head == head
    {
      this.head := head;
    }
  }

  /** What running the rerender tool does: its exit code and the head commit it leaves. */
  datatype ToolRun = ToolRun(exitCode: int, newHead: string)

  /** `rerender`: whether the tool changed the head commit, or the RuntimeError it raises. */
  datatype RerenderResult = Finished(changed: bool) | Raised

  method RerenderWorkspace(ws: Workspace, tool: ToolRun) returns (r: RerenderResult)
    modifies ws
    ensures ws.head == tool.newHead
    ensures tool.exitCode != 0 ==> r == Raised
    ensures tool.exitCode == 0 ==> r == Finished(tool.newHead != old(ws.head))
  {
    var currHead := ws.head;
    ws.head := tool.newHead;
    if tool.exitCode != 0 {
      return Raised;
    }
    return Finished(ws.head != currHead);
  }

  // ---------------------------------------------------------------------------
  // The change list
  // ---------------------------------------------------------------------------

  /** The list of requested changes as English text: "a", "a and b", "a, b, and c". */
  method ChangesText(expected: seq<string>) returns (s: string)
    ensures |expected| == 0 ==> s == ""
    ensures |expected| == 1 ==> s == expected[0]
    ensures |expected| == 2 ==> s == expected[0] + " and " + expected[1]
    ensures |expected| >= 3 ==> s == Join(expected[..|expected| - 1], ", ") + ", and " + expected[|expected| - 1]
  {
    var changes := expected;
    var n := |changes|;
    if n > 1 {
      changes := changes[n - 1 := "and " + changes[n - 1]];
    }
    var joiner := if n > 2 then ", " else " ";
    s := Join(changes, joiner);
    if n == 2 {
      assert changes[0] == expected[0] && changes[1..] == ["and " + expected[1]];
      assert Join(changes[1..], " ") == "and " + expected[1];
      assert s == expected[0] + " " + ("and " + expected[1]);
    } else if n >= 3 {
      assert changes == expected[..n - 1] + ["and " + expected[n - 1]];
      JoinSnoc(expected[..n - 1], "and " + expected[n - 1], ", ");
    }
  }

  // ---------------------------------------------------------------------------
  // What the handlers do
  // ---------------------------------------------------------------------------

  /** The comments the bot posts, by kind, with the values filled into them. */
  datatype Message =
    | CircleKeyUpdated
      /** The push-failure comment; its four slots, in the order the text reads: what was tried, branch, owner, repository. */
    | PushFailed(tried: string, branch: string, owner: string, repo: string)
    | RanIntoIssues(changes: string)
    | NothingToDo(changes: string)
    | TeamUpdated
    | OpenedPullRequest(done: string, org: string, repo: string, number: nat)
    | NothingChanged(done: string)
    | LintReport(message: Linting.LintMessage)

  /** The body of a pull request opened from an issue: what was done, the issue, and the issue it fixes, if any. */
  datatype PullRequestBody = PullRequestBody(done: string, issue: nat, fixes: Option<nat>)

  datatype Effect =
    | UpdateCircleCall(org: string, repo: string)
    | UpdateTeamCall(org: string, repo: string)
    | RelintCall(org: string, repo: string, pr: nat)
    | Clone(owner: string, repo: string, branch: string)
    | CloneDefaultBranch(owner: string, repo: string)
      // add the upstream remote, fetch it, and check out a new branch from its master
    | BranchFromUpstreamMaster(branch: string)
    | RunRerender
    | Push
    | CommentOnPull(message: Message)
    | CommentOnIssue(message: Message)
    | CloseIssue
    | Fork
    | PushBranch(branch: string)
    | OpenPull(title: string, body: PullRequestBody, base: string, head: string)
    | SetStatus(status: Linting.CommitStatus)

  /** Why the issue handler stopped with an exception. */
  datatype Failure = RerenderFailed | PushRejected

  /** Every RelintCall of the trace comes before every RunRerender. */
  predicate LintBeforeRerender(effects: seq<Effect>) {
    forall i, j | 0 <= i < |effects| && 0 <= j < |effects| && effects[i].RelintCall? && effects[j].RunRerender? :: i < j
  }

  /** No action is taken twice. */
  predicate NoRepeats(effects: seq<Effect>) {
    forall i, j | 0 <= i < j < |effects| :: effects[i] != effects[j]
  }

  /** The actions of the rerender part of `pr_detailed_comment`. */
  predicate RerenderEffect(e: Effect, prOwner: string, prRepo: string, prBranch: string) {
    e == RunRerender || e == Push || e == CommentOnPull(PushFailed(prBranch, prOwner, prRepo, RerenderChange))
    || e == CommentOnPull(RanIntoIssues(RerenderChange)) || e == CommentOnPull(NothingToDo(RerenderChange))
  }

  /** The actions `pr_detailed_comment` can take on a pull request. */
  predicate PullEffect(e: Effect, org: string, repo: string, prOwner: string, prRepo: string, prBranch: string,
                       prNum: nat) {
    e == UpdateCircleCall(org, repo) || e == CommentOnPull(CircleKeyUpdated) || e == Clone(prOwner, prRepo, prBranch)
    || e == RelintCall(org, repo, prNum) || RerenderEffect(e, prOwner, prRepo, prBranch)
  }

  /**
   * `pr_detailed_comment`. `cloneHead` is the head commit of the pull request's
   * branch when it is cloned, `tool` what the rerender tool then does, and
   * `pushSucceeds` whether pushing the result to the contributor's branch is
   * accepted.
   */
  method PrDetailedComment(org: string, repo: string, prOwner: string, prRepo: string, prBranch: string,
                           prNum: nat, comment: string, cloneHead: string, tool: ToolRun, pushSucceeds: bool)
    returns (effects: seq<Effect>)
    ensures !ServesPulls(repo) ==> effects == []
    ensures repo == StagedRepo ==> forall e | e in effects :: !e.UpdateCircleCall? && !e.RunRerender?
    ensures (UpdateCircleCall(org, repo) in effects)
              <==> ServesPulls(repo) && repo != StagedRepo && Matches(UpdateCircle, comment)
    ensures RelintCall(org, repo, prNum) in effects <==> ServesPulls(repo) && Matches(Lint, comment)
    ensures RunRerender in effects <==> ServesPulls(repo) && repo != StagedRepo && Matches(Rerender, comment)
    ensures LintBeforeRerender(effects)
    ensures Push in effects <==> RunRerender in effects && tool.exitCode == 0 && tool.newHead != cloneHead
    ensures (CommentOnPull(PushFailed(prBranch, prOwner, prRepo, RerenderChange)) in effects)
              <==> Push in effects && !pushSucceeds
    ensures CommentOnPull(RanIntoIssues(RerenderChange)) in effects <==> RunRerender in effects && tool.exitCode != 0
    ensures (CommentOnPull(NothingToDo(RerenderChange)) in effects)
              <==> RunRerender in effects && tool.exitCode == 0 && tool.newHead == cloneHead
    ensures CommentOnPull(CircleKeyUpdated) in effects <==> UpdateCircleCall(org, repo) in effects
    ensures (Clone(prOwner, prRepo, prBranch) in effects)
              <==> RelintCall(org, repo, prNum) in effects || RunRerender in effects
    ensures forall e | e in effects :: PullEffect(e, org, repo, prOwner, prRepo, prBranch, prNum)
    ensures NoRepeats(effects)
    ensures Push in effects && pushSucceeds ==>
              forall e | e in effects && e.CommentOnPull? :: e == CommentOnPull(CircleKeyUpdated)
  {
    effects := [];
    var isStaged := repo == StagedRepo;
    if !(EndsWith(repo, Teams.FeedstockSuffix) || isStaged) {
      return;
    }
    var asks := PullAsks(Matches(UpdateCircle, comment), Matches(Lint, comment), Matches(Rerender, comment));
    effects := PullActions(org, repo, isStaged, asks, prOwner, prRepo, prBranch, prNum, cloneHead, tool, pushSucceeds);
  }

  /** Which of the pull-request commands a comment holds. */
  datatype PullAsks = PullAsks(circle: bool, lint: bool, rerender: bool)

  /**
   * `pr_detailed_comment` on a repository it serves once the comment has been
   * searched: `asks` holds what the comment asks for, `isStaged` whether the
   * repository is the staging one (which is only ever linted).
   */
  method PullActions(org: string, repo: string, isStaged: bool, asks: PullAsks,
                     prOwner: string, prRepo: string, prBranch: string, prNum: nat,
                     cloneHead: string, tool: ToolRun, pushSucceeds: bool)
    returns (effects: seq<Effect>)
    ensures isStaged ==> forall e | e in effects :: !e.UpdateCircleCall? && !e.RunRerender?
    ensures UpdateCircleCall(org, repo) in effects <==> !isStaged && asks.circle
    ensures RelintCall(org, repo, prNum) in effects <==> asks.lint
    ensures RunRerender in effects <==> !isStaged && asks.rerender
    ensures LintBeforeRerender(effects)
    ensures Push in effects <==> RunRerender in effects && tool.exitCode == 0 && tool.newHead != cloneHead
    ensures (CommentOnPull(PushFailed(prBranch, prOwner, prRepo, RerenderChange)) in effects)
              <==> Push in effects && !pushSucceeds
    ensures CommentOnPull(RanIntoIssues(RerenderChange)) in effects <==> RunRerender in effects && tool.exitCode != 0
    ensures (CommentOnPull(NothingToDo(RerenderChange)) in effects)
              <==> RunRerender in effects && tool.exitCode == 0 && tool.newHead == cloneHead
    ensures CommentOnPull(CircleKeyUpdated) in effects <==> UpdateCircleCall(org, repo) in effects
    ensures (Clone(prOwner, prRepo, prBranch) in effects)
              <==> RelintCall(org, repo, prNum) in effects || RunRerender in effects
    ensures forall e | e in effects :: PullEffect(e, org, repo, prOwner, prRepo, prBranch, prNum)
    ensures NoRepeats(effects)
    ensures Push in effects && pushSucceeds ==>
              forall e | e in effects && e.CommentOnPull? :: e == CommentOnPull(CircleKeyUpdated)
  {
    var circle := CircleKeyUpdate(org, repo, !isStaged && asks.circle);
    var prCommands := [asks.lint];
    if !isStaged {
      prCommands := prCommands + [asks.rerender];
    }
    if !(exists k | 0 <= k < |prCommands| :: prCommands[k]) {
      assert !asks.lint by { assert prCommands[0] == asks.lint; }
      assert !isStaged ==> !asks.rerender by { assert !isStaged ==> prCommands[1] == asks.rerender; }
      effects := circle;
      QuietAfterPush(effects, org, repo, prOwner, prRepo, prBranch, prNum, cloneHead, tool, pushSucceeds);
      return;
    }
    var work := WorkOnClone(org, repo, isStaged, asks.lint, asks.rerender, prOwner, prRepo, prBranch, prNum,
                            cloneHead, tool, pushSucceeds);
    effects := circle + work;
    PullPartsApart(circle, work, org, repo, prOwner, prRepo, prBranch, prNum);
    QuietAfterPush(effects, org, repo, prOwner, prRepo, prBranch, prNum, cloneHead, tool, pushSucceeds);
  }

  /**
   * The deploy-key part and the clone part of `pr_detailed_comment` take
   * different actions, so each action of the whole comes from exactly one of
   * them, and neither the order of the clone part nor its lack of repeats is
   * disturbed.
   */
  lemma PullPartsApart(circle: seq<Effect>, work: seq<Effect>, org: string, repo: string, prOwner: string,
                       prRepo: string, prBranch: string, prNum: nat)
    requires forall e | e in circle :: e == UpdateCircleCall(org, repo) || e == CommentOnPull(CircleKeyUpdated)
    requires forall e | e in work ::
               e == Clone(prOwner, prRepo, prBranch) || e == RelintCall(org, repo, prNum)
               || RerenderEffect(e, prOwner, prRepo, prBranch)
    requires NoRepeats(circle) && NoRepeats(work) && LintBeforeRerender(work)
    ensures forall e | e in circle + work :: PullEffect(e, org, repo, prOwner, prRepo, prBranch, prNum)
    ensures NoRepeats(circle + work) && LintBeforeRerender(circle + work)
    ensures UpdateCircleCall(org, repo) in circle + work <==> UpdateCircleCall(org, repo) in circle
    ensures CommentOnPull(CircleKeyUpdated) in circle + work <==> CommentOnPull(CircleKeyUpdated) in circle
    ensures Clone(prOwner, prRepo, prBranch) in circle + work <==> Clone(prOwner, prRepo, prBranch) in work
    ensures RelintCall(org, repo, prNum) in circle + work <==> RelintCall(org, repo, prNum) in work
    ensures forall e | RerenderEffect(e, prOwner, prRepo, prBranch) :: e in circle + work <==> e in work
  {
    NoRepeatsConcat(circle, work);
    forall i, j | 0 <= i < |circle + work| && 0 <= j < |circle + work|
                  && (circle + work)[i].RelintCall? && (circle + work)[j].RunRerender?
      ensures i < j
    {
      assert (circle + work)[i] in circle + work && (circle + work)[j] in circle + work;
      assert i >= |circle| && j >= |circle|;
      assert (circle + work)[i] == work[i - |circle|] && (circle + work)[j] == work[j - |circle|];
    }
  }

  /**
   * Once the rerender result has been pushed to the contributor's branch, the
   * rerender part says nothing more: the only comment left is the deploy-key one.
   */
  lemma QuietAfterPush(effects: seq<Effect>, org: string, repo: string, prOwner: string, prRepo: string,
                       prBranch: string, prNum: nat, cloneHead: string, tool: ToolRun, pushSucceeds: bool)
    requires forall e | e in effects :: PullEffect(e, org, repo, prOwner, prRepo, prBranch, prNum)
    requires Push in effects <==> RunRerender in effects && tool.exitCode == 0 && tool.newHead != cloneHead
    requires (CommentOnPull(PushFailed(prBranch, prOwner, prRepo, RerenderChange)) in effects)
               <==> Push in effects && !pushSucceeds
    requires CommentOnPull(RanIntoIssues(RerenderChange)) in effects <==> RunRerender in effects && tool.exitCode != 0
    requires (CommentOnPull(NothingToDo(RerenderChange)) in effects)
               <==> RunRerender in effects && tool.exitCode == 0 && tool.newHead == cloneHead
    ensures Push in effects && pushSucceeds ==>
              forall e | e in effects && e.CommentOnPull? :: e == CommentOnPull(CircleKeyUpdated)
  {
  }

  /** Refreshing the deploy key when asked to, and saying so on the pull request. */
  method CircleKeyUpdate(org: string, repo: string, asked: bool) returns (effects: seq<Effect>)
    ensures UpdateCircleCall(org, repo) in effects <==> asked
    ensures CommentOnPull(CircleKeyUpdated) in effects <==> asked
    ensures forall e | e in effects :: e == UpdateCircleCall(org, repo) || e == CommentOnPull(CircleKeyUpdated)
    ensures NoRepeats(effects)
  {
    effects := [];
    if asked {
      effects := [UpdateCircleCall(org, repo), CommentOnPull(CircleKeyUpdated)];
    }
  }

  /**
   * The part of `pr_detailed_comment` that works in the clone of the pull
   * request's branch: relint when asked to, then the rerender part (never on
   * the staging repository).
   */
  method WorkOnClone(org: string, repo: string, isStaged: bool, lintAsked: bool, rerenderAsked: bool,
                     prOwner: string, prRepo: string, prBranch: string, prNum: nat,
                     cloneHead: string, tool: ToolRun, pushSucceeds: bool)
    returns (effects: seq<Effect>)
    ensures Clone(prOwner, prRepo, prBranch) in effects
    ensures RelintCall(org, repo, prNum) in effects <==> lintAsked
    ensures RunRerender in effects <==> !isStaged && rerenderAsked
    ensures LintBeforeRerender(effects)
    ensures Push in effects <==> RunRerender in effects && tool.exitCode == 0 && tool.newHead != cloneHead
    ensures (CommentOnPull(PushFailed(prBranch, prOwner, prRepo, RerenderChange)) in effects)
              <==> Push in effects && !pushSucceeds
    ensures CommentOnPull(RanIntoIssues(RerenderChange)) in effects <==> RunRerender in effects && tool.exitCode != 0
    ensures (CommentOnPull(NothingToDo(RerenderChange)) in effects)
              <==> RunRerender in effects && tool.exitCode == 0 && tool.newHead == cloneHead
    ensures forall e | e in effects ::
              e == Clone(prOwner, prRepo, prBranch) || e == RelintCall(org, repo, prNum)
              || RerenderEffect(e, prOwner, prRepo, prBranch)
    ensures NoRepeats(effects)
  {
    var clone := [Clone(prOwner, prRepo, prBranch)];
    var lint: seq<Effect> := [];
    if lintAsked {
      lint := [RelintCall(org, repo, prNum)];
    }
    var tail: seq<Effect> := [];
    if !isStaged {
      tail := RerenderPull(rerenderAsked, cloneHead, tool, pushSucceeds, prOwner, prRepo, prBranch);
    }
    effects := clone + lint + tail;
    LintBeforeRerenderConcat(clone + lint, tail);
    NoRepeatsConcat(clone, lint);
    NoRepeatsConcat(clone + lint, tail);
  }

  /**
   * The rerender part of `pr_detailed_comment`, in the clone of the pull
   * request's branch: rerender when asked to, then push the result or say why
   * nothing was pushed.
   */
  method RerenderPull(doRerender: bool, cloneHead: string, tool: ToolRun, pushSucceeds: bool,
                      prOwner: string, prRepo: string, prBranch: string)
    returns (effects: seq<Effect>)
    ensures forall e | e in effects :: !e.RelintCall? && !e.UpdateCircleCall?
    ensures RunRerender in effects <==> doRerender
    ensures Push in effects <==> doRerender && tool.exitCode == 0 && tool.newHead != cloneHead
    ensures (CommentOnPull(PushFailed(prBranch, prOwner, prRepo, RerenderChange)) in effects)
              <==> doRerender && tool.exitCode == 0 && tool.newHead != cloneHead && !pushSucceeds
    ensures (CommentOnPull(RanIntoIssues(RerenderChange)) in effects) <==> doRerender && tool.exitCode != 0
    ensures (CommentOnPull(NothingToDo(RerenderChange)) in effects)
              <==> doRerender && tool.exitCode == 0 && tool.newHead == cloneHead
    ensures forall e | e in effects :: RerenderEffect(e, prOwner, prRepo, prBranch)
    ensures NoRepeats(effects)
  {
    var ws := new Workspace(cloneHead);
    var changedAnything := false;
    var rerenderError := false;
    var expectedChanges: seq<string> := [];
    effects := [];
    if doRerender {
      expectedChanges := expectedChanges + [RerenderChange];
      effects := [RunRerender];
      var r := RerenderWorkspace(ws, tool);
      match r {
        case Finished(changed) => changedAnything := changedAnything || changed;
        case Raised => rerenderError := true;
      }
    }
    if expectedChanges != [] {
      var changesStr := ChangesText(expectedChanges);
      if changedAnything {
        effects := effects + [Push];
        if !pushSucceeds {
          effects := effects + [CommentOnPull(PushFailed(prBranch, prOwner, prRepo, changesStr))];
        }
      } else if rerenderError {
        effects := effects + [CommentOnPull(RanIntoIssues(changesStr))];
      } else {
        effects := effects + [CommentOnPull(NothingToDo(changesStr))];
      }
    }
  }

  lemma LintBeforeRerenderConcat(a: seq<Effect>, b: seq<Effect>)
    requires forall e | e in a :: !e.RunRerender?
    requires forall e | e in b :: !e.RelintCall?
    ensures LintBeforeRerender(a + b)
  {
    forall i, j | 0 <= i < |a + b| && 0 <= j < |a + b| && (a + b)[i].RelintCall? && (a + b)[j].RunRerender?
      ensures i < j
    {
      assert (a + b)[i] in a + b && (a + b)[j] in a + b;
    }
  }

  lemma NoRepeatsConcat(a: seq<Effect>, b: seq<Effect>)
    requires NoRepeats(a) && NoRepeats(b)
    requires forall e | e in a :: e !in b
    ensures NoRepeats(a + b)
  {
    forall i, j | 0 <= i < j < |a + b| ensures (a + b)[i] != (a + b)[j] {
      if i < |a| && |a| <= j {
        assert (a + b)[i] in a && (a + b)[j] == b[j - |a|];
      } else if |a| <= i {
        assert (a + b)[i] == b[i - |a|] && (a + b)[j] == b[j - |a|];
      }
    }
  }

  /** An action of a trace without repeats is taken exactly once: in particular the rerendered branch is pushed once. */
  lemma {:induction false} TakenOnce(effects: seq<Effect>, e: Effect)
    requires NoRepeats(effects) && e in effects
    ensures multiset(effects)[e] == 1
    decreases |effects|
  {
    assert effects == [effects[0]] + effects[1..];
    assert NoRepeats(effects[1..]) by {
      forall i, j | 0 <= i < j < |effects[1..]| ensures effects[1..][i] != effects[1..][j] {
        assert effects[1..][i] == effects[i + 1] && effects[1..][j] == effects[j + 1];
      }
    }
    if effects[0] == e {
      assert e !in effects[1..] by {
        forall j | 0 <= j < |effects[1..]| ensures effects[1..][j] != e {
          assert effects[1..][j] == effects[j + 1];
        }
      }
      assert multiset(effects[1..])[e] == 0;
    } else {
      TakenOnce(effects[1..], e);
    }
  }

  /**
   * `pr_comment`: a comment without the "@nwb-extensions-admin" or
   * "@nwb-extensions-linter" mention is ignored; any other is handed on with the
   * pull request's head repository and branch.
   */
  method PrComment(org: string, repo: string, issueNum: nat, comment: string,
                   headOwner: string, headRepo: string, headRef: string,
                   cloneHead: string, tool: ToolRun, pushSucceeds: bool)
    returns (effects: seq<Effect>)
    ensures !PrefixMatches(comment) ==> effects == []
    ensures (UpdateCircleCall(org, repo) in effects)
              <==> ServesPulls(repo) && repo != StagedRepo && Matches(UpdateCircle, comment)
    ensures RelintCall(org, repo, issueNum) in effects <==> ServesPulls(repo) && Matches(Lint, comment)
    ensures RunRerender in effects <==> ServesPulls(repo) && repo != StagedRepo && Matches(Rerender, comment)
  {
    if !PrefixMatches(comment) {
      CommandImpliesPrefix(UpdateCircle, comment);
      CommandImpliesPrefix(Lint, comment);
      CommandImpliesPrefix(Rerender, comment);
      return [];
    }
    effects := PrDetailedComment(org, repo, headOwner, headRepo, headRef, issueNum, comment, cloneHead, tool,
                                 pushSucceeds);
  }

  /** The branch of the bot's fork that a pull request opened from issue `issueNum` comes from. */
  function ForkBranch(issueNum: nat): (b: string)
  {
    AdminBranchPrefix + NatToString(issueNum)
  }

  /**
   * The fork branch is the admin prefix followed by the canonical decimal
   * digits of the issue number, which read back as that number.
   */
  lemma ForkBranchSpelling(issueNum: nat)
    ensures var b := ForkBranch(issueNum);
            |b| > |AdminBranchPrefix| && b[..|AdminBranchPrefix|] == AdminBranchPrefix
            && Canonical(b[|AdminBranchPrefix|..]) && DigitsValue(b[|AdminBranchPrefix|..]) == issueNum
  {
    var digits := NatToString(issueNum);
    assert (AdminBranchPrefix + digits)[|AdminBranchPrefix|..] == digits;
    NatToStringInverse(issueNum);
  }

  /** Different issues get different branches. */
  lemma ForkBranchInjective(m: nat, n: nat)
    requires ForkBranch(m) == ForkBranch(n)
    ensures m == n
  {
    ForkBranchSpelling(m);
    ForkBranchSpelling(n);
  }

  /** The actions of the rerender part of `issue_comment`. */
  predicate SendEffect(e: Effect, org: string, repo: string, issueNum: nat, forkUser: string, toClose: bool,
                       newPrNumber: nat) {
    e == Fork || e == CloneDefaultBranch(forkUser, repo) || e == BranchFromUpstreamMaster(ForkBranch(issueNum))
    || e == RunRerender
    || e == PushBranch(ForkBranch(issueNum))
    || e == RerenderPullRequest(forkUser, issueNum, toClose)
    || e == CommentOnIssue(OpenedPullRequest(RerenderDone, org, repo, newPrNumber))
    || e == CommentOnIssue(NothingChanged(RerenderDone)) || e == CloseIssue
  }

  /** The actions `issue_comment` can take on an issue. */
  predicate IssueEffect(e: Effect, org: string, repo: string, issueNum: nat, forkUser: string, toClose: bool,
                        newPrNumber: nat) {
    e == UpdateTeamCall(org, repo) || e == CommentOnIssue(TeamUpdated)
    || e == UpdateCircleCall(org, repo) || e == CommentOnIssue(CircleKeyUpdated)
    || SendEffect(e, org, repo, issueNum, forkUser, toClose, newPrNumber)
  }

  /**
   * The rerender part of `issue_comment`: fork, clone the fork, start a new
   * branch from the upstream master, rerender, and either push the branch and
   * open a pull request or report that nothing changed. `toClose` says whether
   * the issue title asked for the rerender; `cloneHead` is the head of the new
   * branch, that is the tip of the upstream master.
   */
  method SendRerenderPull(org: string, repo: string, issueNum: nat, toClose: bool, forkUser: string,
                          cloneHead: string, tool: ToolRun, pushSucceeds: bool, newPrNumber: nat)
    returns (effects: seq<Effect>, error: Option<Failure>)
    ensures |effects| >= 4
    ensures effects[..4]
            == [Fork, CloneDefaultBranch(forkUser, repo), BranchFromUpstreamMaster(ForkBranch(issueNum)), RunRerender]
    ensures RunRerender in effects
    ensures Fork in effects && CloneDefaultBranch(forkUser, repo) in effects
    ensures BranchFromUpstreamMaster(ForkBranch(issueNum)) in effects
    ensures PushBranch(ForkBranch(issueNum)) in effects <==> tool.exitCode == 0 && tool.newHead != cloneHead
    ensures error == Some(RerenderFailed) <==> tool.exitCode != 0
    ensures error == Some(PushRejected) <==> tool.exitCode == 0 && tool.newHead != cloneHead && !pushSucceeds
    ensures CloseIssue in effects <==> toClose && tool.exitCode == 0 && tool.newHead == cloneHead
    ensures (RerenderPullRequest(forkUser, issueNum, toClose) in effects)
              <==> tool.exitCode == 0 && tool.newHead != cloneHead && pushSucceeds
    ensures (CommentOnIssue(OpenedPullRequest(RerenderDone, org, repo, newPrNumber)) in effects)
              <==> tool.exitCode == 0 && tool.newHead != cloneHead && pushSucceeds
    ensures CommentOnIssue(NothingChanged(RerenderDone)) in effects <==> tool.exitCode == 0 && tool.newHead == cloneHead
    ensures forall e | e in effects :: SendEffect(e, org, repo, issueNum, forkUser, toClose, newPrNumber)
    ensures NoRepeats(effects)
  {
    var forkBranch := ForkBranch(issueNum);
    var setup := [Fork, CloneDefaultBranch(forkUser, repo), BranchFromUpstreamMaster(forkBranch), RunRerender];
    var ws := new Workspace(cloneHead);
    var changedAnything := false;
    var r := RerenderWorkspace(ws, tool);
    match r {
      case Raised =>
        effects, error := setup, Some(RerenderFailed);
        SendPartsApart(setup, [], org, repo, forkUser, forkBranch, RerenderPullRequest(forkUser, issueNum, toClose),
                       newPrNumber);
        SetupFirst(setup, [], forkUser, repo, forkBranch);
        assert setup + [] == setup;
        return;
      case Finished(changed) =>
        changedAnything := changedAnything || changed;
    }
    var published;
    published, error := PublishRerender(org, repo, issueNum, toClose, forkUser, changedAnything, pushSucceeds,
                                        newPrNumber);
    effects := setup + published;
    SendPartsApart(setup, published, org, repo, forkUser, forkBranch, RerenderPullRequest(forkUser, issueNum, toClose),
                   newPrNumber);
    SetupFirst(setup, published, forkUser, repo, forkBranch);
  }

  /**
   * The fork-clone-rerender part and the publishing part of the rerender from
   * an issue take different actions, so each action of the whole comes from
   * exactly one of them and none is taken twice.
   */
  lemma SendPartsApart(setup: seq<Effect>, published: seq<Effect>, org: string, repo: string, forkUser: string,
                       branch: string, pull: Effect, newPrNumber: nat)
    requires pull.OpenPull?
    requires setup == [Fork, CloneDefaultBranch(forkUser, repo), BranchFromUpstreamMaster(branch), RunRerender]
    requires forall e | e in published ::
               e == PushBranch(branch) || e == pull
               || e == CommentOnIssue(OpenedPullRequest(RerenderDone, org, repo, newPrNumber))
               || e == CommentOnIssue(NothingChanged(RerenderDone)) || e == CloseIssue
    requires NoRepeats(published)
    ensures PushBranch(branch) in setup + published <==> PushBranch(branch) in published
    ensures forall e | e in setup + published ::
              e == Fork || e == CloneDefaultBranch(forkUser, repo) || e == BranchFromUpstreamMaster(branch)
              || e == RunRerender || e == PushBranch(branch) || e == pull
              || e == CommentOnIssue(OpenedPullRequest(RerenderDone, org, repo, newPrNumber))
              || e == CommentOnIssue(NothingChanged(RerenderDone)) || e == CloseIssue
    ensures NoRepeats(setup + published)
    ensures CloseIssue in setup + published <==> CloseIssue in published
    ensures pull in setup + published <==> pull in published
    ensures (CommentOnIssue(OpenedPullRequest(RerenderDone, org, repo, newPrNumber)) in setup + published)
              <==> CommentOnIssue(OpenedPullRequest(RerenderDone, org, repo, newPrNumber)) in published
    ensures (CommentOnIssue(NothingChanged(RerenderDone)) in setup + published)
              <==> CommentOnIssue(NothingChanged(RerenderDone)) in published
  {
    NoRepeatsConcat(setup, published);
  }

  /** The fork, the clone, the new branch and the rerender come first, in that order. */
  lemma SetupFirst(setup: seq<Effect>, published: seq<Effect>, forkUser: string, repo: string, branch: string)
    requires setup == [Fork, CloneDefaultBranch(forkUser, repo), BranchFromUpstreamMaster(branch), RunRerender]
    ensures |setup + published| >= 4 && (setup + published)[..4] == setup
    ensures RunRerender in setup + published && Fork in setup + published
    ensures CloneDefaultBranch(forkUser, repo) in setup + published
    ensures BranchFromUpstreamMaster(branch) in setup + published
  {
    assert setup[0] == Fork && setup[1] == CloneDefaultBranch(forkUser, repo);
    assert setup[2] == BranchFromUpstreamMaster(branch) && setup[3] == RunRerender;
    assert (setup + published)[..4] == setup;
  }

  /** The pull request opened from an issue; it fixes the issue when `toClose` holds. */
  function RerenderPullRequest(forkUser: string, issueNum: nat, toClose: bool): (e: Effect)
    ensures e.OpenPull? && e.title == RerenderTitle && e.base == DefaultBranch
    ensures e.head == forkUser + ":" + ForkBranch(issueNum)
    ensures e.body.done == RerenderDone && e.body.issue == issueNum
    ensures e.body.fixes.Some? <==> toClose
    ensures e.body.fixes.Some? ==> e.body.fixes == Some(issueNum)
  {
    OpenPull(RerenderTitle, PullRequestBody(RerenderDone, issueNum, if toClose then Some(issueNum) else None),
             DefaultBranch, forkUser + ":" + ForkBranch(issueNum))
  }

  /**
   * What `issue_comment` does after rerendering: push the fork branch and open
   * a pull request when something changed, otherwise say so and close the
   * issue when its title asked for the rerender.
   */
  method PublishRerender(org: string, repo: string, issueNum: nat, toClose: bool, forkUser: string,
                         changedAnything: bool, pushSucceeds: bool, newPrNumber: nat)
    returns (effects: seq<Effect>, error: Option<Failure>)
    ensures error == None || error == Some(PushRejected)
    ensures error == Some(PushRejected) <==> changedAnything && !pushSucceeds
    ensures PushBranch(ForkBranch(issueNum)) in effects <==> changedAnything
    ensures RerenderPullRequest(forkUser, issueNum, toClose) in effects <==> changedAnything && pushSucceeds
    ensures (CommentOnIssue(OpenedPullRequest(RerenderDone, org, repo, newPrNumber)) in effects)
              <==> changedAnything && pushSucceeds
    ensures CommentOnIssue(NothingChanged(RerenderDone)) in effects <==> !changedAnything
    ensures CloseIssue in effects <==> !changedAnything && toClose
    ensures forall e | e in effects ::
              e == PushBranch(ForkBranch(issueNum)) || e == RerenderPullRequest(forkUser, issueNum, toClose)
              || e == CommentOnIssue(OpenedPullRequest(RerenderDone, org, repo, newPrNumber))
              || e == CommentOnIssue(NothingChanged(RerenderDone)) || e == CloseIssue
    ensures NoRepeats(effects)
  {
    effects, error := [], None;
    var forkBranch := ForkBranch(issueNum);
    var prTitle := RerenderTitle;
    var commentMsg := RerenderDone;
    if changedAnything {
      effects := [PushBranch(forkBranch)];
      if !pushSucceeds {
        error := Some(PushRejected);
        return;
      }
      var body := PullRequestBody(commentMsg, issueNum, if toClose then Some(issueNum) else None);
      var pull := OpenPull(prTitle, body, DefaultBranch, forkUser + ":" + forkBranch);
      effects := effects + [pull, CommentOnIssue(OpenedPullRequest(commentMsg, org, repo, newPrNumber))];
    } else {
      effects := [CommentOnIssue(NothingChanged(commentMsg))];
      if toClose {
        effects := effects + [CloseIssue];
      }
    }
  }

  /** Which of the issue commands a text holds. */
  datatype IssueAsks = IssueAsks(team: bool, circle: bool, rerender: bool)

  /** The searches `issue_comment` makes in one text. */
  function AsksIn(text: string): (a: IssueAsks)
    ensures a.team <==> CommandOccurs(UpdateTeam, text)
    ensures a.circle <==> CommandOccurs(UpdateCircle, text)
    ensures a.rerender <==> CommandOccurs(Rerender, text)
  {
    MatchesIffOccurs(UpdateTeam, text);
    MatchesIffOccurs(UpdateCircle, text);
    MatchesIffOccurs(Rerender, text);
    IssueAsks(Matches(UpdateTeam, text), Matches(UpdateCircle, text), Matches(Rerender, text))
  }

  /**
   * `issue_comment` on a feedstock once its searches are done: `inText` holds
   * what the comment followed by the title asks for, `inTitle` what the title
   * alone asks for (a command in the title is also one in the whole text).
   */
  method IssueActions(org: string, repo: string, issueNum: nat, inText: IssueAsks, inTitle: IssueAsks,
                      forkUser: string, cloneHead: string, tool: ToolRun, pushSucceeds: bool, newPrNumber: nat)
    returns (effects: seq<Effect>, error: Option<Failure>)
    requires inTitle.team ==> inText.team
    requires inTitle.circle ==> inText.circle
    requires inTitle.rerender ==> inText.rerender
    ensures UpdateTeamCall(org, repo) in effects <==> inText.team
    ensures UpdateCircleCall(org, repo) in effects <==> inText.circle
    ensures !(inText.team || inText.circle || inText.rerender) ==> effects == [] && error == None
    ensures RunRerender in effects <==> inText.rerender
    ensures Fork in effects <==> inText.rerender
    ensures CloneDefaultBranch(forkUser, repo) in effects <==> inText.rerender
    ensures BranchFromUpstreamMaster(ForkBranch(issueNum)) in effects <==> inText.rerender
    ensures (PushBranch(ForkBranch(issueNum)) in effects)
              <==> inText.rerender && tool.exitCode == 0 && tool.newHead != cloneHead
    ensures error == Some(RerenderFailed) <==> inText.rerender && tool.exitCode != 0
    ensures error == Some(PushRejected) <==> inText.rerender && tool.exitCode == 0 && tool.newHead != cloneHead && !pushSucceeds
    ensures (CloseIssue in effects)
              <==> inTitle.team || inTitle.circle || (inTitle.rerender && tool.exitCode == 0 && tool.newHead == cloneHead)
    ensures (RerenderPullRequest(forkUser, issueNum, inTitle.rerender) in effects)
              <==> inText.rerender && tool.exitCode == 0 && tool.newHead != cloneHead && pushSucceeds
    ensures CommentOnIssue(TeamUpdated) in effects <==> inText.team
    ensures CommentOnIssue(CircleKeyUpdated) in effects <==> inText.circle
    ensures (CommentOnIssue(OpenedPullRequest(RerenderDone, org, repo, newPrNumber)) in effects)
              <==> inText.rerender && tool.exitCode == 0 && tool.newHead != cloneHead && pushSucceeds
    ensures (CommentOnIssue(NothingChanged(RerenderDone)) in effects)
              <==> inText.rerender && tool.exitCode == 0 && tool.newHead == cloneHead
    ensures forall e | e in effects :: IssueEffect(e, org, repo, issueNum, forkUser, inTitle.rerender, newPrNumber)
  {
    effects, error := [], None;
    if !(inText.team || inText.circle || inText.rerender) {
      return;
    }
    var services := IssueServices(org, repo, inText, inTitle);
    var pull;
    pull, error := RerenderFromIssue(inText.rerender, org, repo, issueNum, inTitle.rerender, forkUser,
                                     cloneHead, tool, pushSucceeds, newPrNumber);
    effects := services + pull;
    IssuePartsApart(services, pull, org, repo, issueNum, forkUser, inTitle.rerender, newPrNumber);
  }

  /**
   * The service part and the rerender part of `issue_comment` take different
   * actions, so each action of the whole comes from exactly one of them.
   */
  lemma IssuePartsApart(services: seq<Effect>, pull: seq<Effect>, org: string, repo: string, issueNum: nat,
                        forkUser: string, toClose: bool, newPrNumber: nat)
    requires forall e | e in services ::
               e == UpdateTeamCall(org, repo) || e == CommentOnIssue(TeamUpdated)
               || e == UpdateCircleCall(org, repo) || e == CommentOnIssue(CircleKeyUpdated) || e == CloseIssue
    requires forall e | e in pull :: SendEffect(e, org, repo, issueNum, forkUser, toClose, newPrNumber)
    ensures forall e | e in services + pull :: IssueEffect(e, org, repo, issueNum, forkUser, toClose, newPrNumber)
    ensures UpdateTeamCall(org, repo) in services + pull <==> UpdateTeamCall(org, repo) in services
    ensures CommentOnIssue(TeamUpdated) in services + pull <==> CommentOnIssue(TeamUpdated) in services
    ensures UpdateCircleCall(org, repo) in services + pull <==> UpdateCircleCall(org, repo) in services
    ensures CommentOnIssue(CircleKeyUpdated) in services + pull <==> CommentOnIssue(CircleKeyUpdated) in services
    ensures RunRerender in services + pull <==> RunRerender in pull
    ensures Fork in services + pull <==> Fork in pull
    ensures CloneDefaultBranch(forkUser, repo) in services + pull <==> CloneDefaultBranch(forkUser, repo) in pull
    ensures (BranchFromUpstreamMaster(ForkBranch(issueNum)) in services + pull)
              <==> BranchFromUpstreamMaster(ForkBranch(issueNum)) in pull
    ensures (PushBranch(ForkBranch(issueNum)) in services + pull) <==> PushBranch(ForkBranch(issueNum)) in pull
    ensures (RerenderPullRequest(forkUser, issueNum, toClose) in services + pull)
              <==> RerenderPullRequest(forkUser, issueNum, toClose) in pull
    ensures (CommentOnIssue(OpenedPullRequest(RerenderDone, org, repo, newPrNumber)) in services + pull)
              <==> CommentOnIssue(OpenedPullRequest(RerenderDone, org, repo, newPrNumber)) in pull
    ensures (CommentOnIssue(NothingChanged(RerenderDone)) in services + pull)
              <==> CommentOnIssue(NothingChanged(RerenderDone)) in pull
  {
  }

  /** The rerender part of `issue_comment`, when the text asks for it. */
  method RerenderFromIssue(asked: bool, org: string, repo: string, issueNum: nat, toClose: bool, forkUser: string,
                           cloneHead: string, tool: ToolRun, pushSucceeds: bool, newPrNumber: nat)
    returns (effects: seq<Effect>, error: Option<Failure>)
    requires toClose ==> asked
    ensures RunRerender in effects <==> asked
    ensures Fork in effects <==> asked
    ensures CloneDefaultBranch(forkUser, repo) in effects <==> asked
    ensures BranchFromUpstreamMaster(ForkBranch(issueNum)) in effects <==> asked
    ensures (PushBranch(ForkBranch(issueNum)) in effects)
              <==> asked && tool.exitCode == 0 && tool.newHead != cloneHead
    ensures error == Some(RerenderFailed) <==> asked && tool.exitCode != 0
    ensures error == Some(PushRejected) <==> asked && tool.exitCode == 0 && tool.newHead != cloneHead && !pushSucceeds
    ensures CloseIssue in effects <==> toClose && tool.exitCode == 0 && tool.newHead == cloneHead
    ensures (RerenderPullRequest(forkUser, issueNum, toClose) in effects)
              <==> asked && tool.exitCode == 0 && tool.newHead != cloneHead && pushSucceeds
    ensures (CommentOnIssue(OpenedPullRequest(RerenderDone, org, repo, newPrNumber)) in effects)
              <==> asked && tool.exitCode == 0 && tool.newHead != cloneHead && pushSucceeds
    ensures (CommentOnIssue(NothingChanged(RerenderDone)) in effects)
              <==> asked && tool.exitCode == 0 && tool.newHead == cloneHead
    ensures forall e | e in effects :: SendEffect(e, org, repo, issueNum, forkUser, toClose, newPrNumber)
  {
    effects, error := [], None;
    if asked {
      effects, error := SendRerenderPull(org, repo, issueNum, toClose, forkUser, cloneHead, tool, pushSucceeds,
                                         newPrNumber);
    }
  }

  /** The team update and the deploy-key update of `issue_comment`, each when asked for. */
  method IssueServices(org: string, repo: string, inText: IssueAsks, inTitle: IssueAsks) returns (effects: seq<Effect>)
    ensures UpdateTeamCall(org, repo) in effects <==> inText.team
    ensures CommentOnIssue(TeamUpdated) in effects <==> inText.team
    ensures UpdateCircleCall(org, repo) in effects <==> inText.circle
    ensures CommentOnIssue(CircleKeyUpdated) in effects <==> inText.circle
    ensures CloseIssue in effects <==> (inText.team && inTitle.team) || (inText.circle && inTitle.circle)
    ensures forall e | e in effects ::
              e == UpdateTeamCall(org, repo) || e == CommentOnIssue(TeamUpdated)
              || e == UpdateCircleCall(org, repo) || e == CommentOnIssue(CircleKeyUpdated) || e == CloseIssue
  {
    var team := IssueServiceCall(UpdateTeamCall(org, repo), TeamUpdated, inText.team, inTitle.team);
    var circle := IssueServiceCall(UpdateCircleCall(org, repo), CircleKeyUpdated, inText.circle, inTitle.circle);
    effects := team + circle;
  }

  /**
   * One service asked for in an issue: call it, close the issue when the
   * title asked for it, and confirm on the issue.
   */
  method IssueServiceCall(call: Effect, done: Message, asked: bool, inTitle: bool) returns (effects: seq<Effect>)
    requires !call.CloseIssue? && !call.CommentOnIssue?
    ensures call in effects <==> asked
    ensures CommentOnIssue(done) in effects <==> asked
    ensures CloseIssue in effects <==> asked && inTitle
    ensures forall e | e in effects :: e == call || e == CloseIssue || e == CommentOnIssue(done)
    ensures NoRepeats(effects)
  {
    effects := [];
    if asked {
      effects := [call];
      if inTitle {
        effects := effects + [CloseIssue];
      }
      effects := effects + [CommentOnIssue(done)];
    }
  }

  /** The only pull request the issue handler opens is the rerender one. */
  lemma OnlyRerenderPullRequests(effects: seq<Effect>, org: string, repo: string, issueNum: nat, forkUser: string,
                                 toClose: bool, newPrNumber: nat)
    requires forall e | e in effects :: IssueEffect(e, org, repo, issueNum, forkUser, toClose, newPrNumber)
    ensures forall e | e in effects && e.OpenPull? :: e == RerenderPullRequest(forkUser, issueNum, toClose)
    ensures (exists e | e in effects :: e.OpenPull?) <==> RerenderPullRequest(forkUser, issueNum, toClose) in effects
  {
  }

  /**
   * `issue_comment`. The commands are looked for in the comment followed by the
   * issue title; the title alone decides whether the issue is closed. `forkUser`
   * is the bot's login, `newPrNumber` the number GitHub gives a new pull
   * request. A failing rerender or a rejected push ends the handler with an
   * exception, reported in `error`.
   */
  method IssueComment(org: string, repo: string, issueNum: nat, title: string, comment: string,
                      forkUser: string, cloneHead: string, tool: ToolRun, pushSucceeds: bool, newPrNumber: nat)
    returns (effects: seq<Effect>, error: Option<Failure>)
    ensures !EndsWith(repo, Teams.FeedstockSuffix) ==> effects == [] && error == None
    ensures (UpdateTeamCall(org, repo) in effects)
              <==> EndsWith(repo, Teams.FeedstockSuffix) && Matches(UpdateTeam, comment + title)
    ensures (UpdateCircleCall(org, repo) in effects)
              <==> EndsWith(repo, Teams.FeedstockSuffix) && Matches(UpdateCircle, comment + title)
    ensures RunRerender in effects <==> EndsWith(repo, Teams.FeedstockSuffix) && Matches(Rerender, comment + title)
    ensures (!Matches(UpdateTeam, comment + title) && !Matches(UpdateCircle, comment + title)
             && !Matches(Rerender, comment + title)) ==> effects == [] && error == None
    ensures Fork in effects <==> RunRerender in effects
    ensures CloneDefaultBranch(forkUser, repo) in effects <==> RunRerender in effects
    ensures BranchFromUpstreamMaster(ForkBranch(issueNum)) in effects <==> RunRerender in effects
    ensures (PushBranch(ForkBranch(issueNum)) in effects)
              <==> RunRerender in effects && tool.exitCode == 0 && tool.newHead != cloneHead
    ensures error == Some(RerenderFailed) <==> RunRerender in effects && tool.exitCode != 0
    ensures (error == Some(PushRejected))
              <==> RunRerender in effects && tool.exitCode == 0 && tool.newHead != cloneHead && !pushSucceeds
    ensures (CloseIssue in effects)
              <==> EndsWith(repo, Teams.FeedstockSuffix)
                   && (Matches(UpdateTeam, title) || Matches(UpdateCircle, title)
                       || (Matches(Rerender, title) && tool.exitCode == 0 && tool.newHead == cloneHead))
    ensures forall e | e in effects && e.OpenPull? ::
              e.title == RerenderTitle && e.base == DefaultBranch && e.head == forkUser + ":" + ForkBranch(issueNum)
              && e.body.issue == issueNum && e.body.done == RerenderDone
              && (e.body.fixes == Some(issueNum) <==> Matches(Rerender, title))
              && (e.body.fixes.Some? ==> e.body.fixes == Some(issueNum))
    ensures ((exists e | e in effects :: e.OpenPull?))
              <==> RunRerender in effects && tool.exitCode == 0 && tool.newHead != cloneHead && pushSucceeds
    ensures CommentOnIssue(TeamUpdated) in effects <==> UpdateTeamCall(org, repo) in effects
    ensures CommentOnIssue(CircleKeyUpdated) in effects <==> UpdateCircleCall(org, repo) in effects
    ensures (CommentOnIssue(OpenedPullRequest(RerenderDone, org, repo, newPrNumber)) in effects)
              <==> RunRerender in effects && tool.exitCode == 0 && tool.newHead != cloneHead && pushSucceeds
    ensures (CommentOnIssue(NothingChanged(RerenderDone)) in effects)
              <==> RunRerender in effects && tool.exitCode == 0 && tool.newHead == cloneHead
    ensures forall e | e in effects :: IssueEffect(e, org, repo, issueNum, forkUser, Matches(Rerender, title), newPrNumber)
  {
    effects, error := [], None;
    if !EndsWith(repo, Teams.FeedstockSuffix) {
      return;
    }
    var text := comment + title;
    var inText, inTitle := AsksIn(text), AsksIn(title);
    if inTitle.team { MatchesAfter(UpdateTeam, comment, title); }
    if inTitle.circle { MatchesAfter(UpdateCircle, comment, title); }
    if inTitle.rerender { MatchesAfter(Rerender, comment, title); }
    effects, error := IssueActions(org, repo, issueNum, inText, inTitle, forkUser, cloneHead, tool, pushSucceeds,
                                   newPrNumber);
    OnlyRerenderPullRequests(effects, org, repo, issueNum, forkUser, inTitle.rerender, newPrNumber);
  }

  // ---------------------------------------------------------------------------
  // Relinting
  // ---------------------------------------------------------------------------

  /**
   * `relint`: lint the pull request (ignoring the base's extensions on the
   * staging repository), then always post the report and set the commit
   * status. The linting service's oracles are passed through; `commentUrl` is
   * the address of the comment it posts. The report is posted with `force`
   * set, and a forced `comment_on_pr` always posts a new comment
   * (`Linting.CommentOnPr` returns `Created` then), so the existing comments
   * and the bot's login play no part here.
   */
  method Relint(org: string, repo: string, prNum: nat,
                poll: Linting.Poll, sha: string, commitMessage: string,
                recipes: seq<string>, baseRecipes: seq<string>, linter: string -> Linting.LinterRun,
                openAtEnd: bool, commentUrl: string)
    returns (effects: seq<Effect>)
    ensures poll.ClosedWhilePolling? || Linting.ShouldSkip(commitMessage) ==> effects == []
    ensures poll == Linting.Polled(false) && !Linting.ShouldSkip(commitMessage) ==>
              effects == [CommentOnPull(LintReport(Linting.MergeConflictNotice)),
                          SetStatus(Linting.CommitStatus(sha, Linting.Failure, Linting.BadDescription,
                                                         Linting.LinterContext, Some(commentUrl)))]
    ensures poll == Linting.Polled(true) && !Linting.ShouldSkip(commitMessage) ==>
              var targets := Linting.LintTargets(recipes, if repo == StagedRepo then baseRecipes else []);
              var info := Linting.Verdict(targets, linter, sha);
              effects == if openAtEnd
                         then [CommentOnPull(LintReport(info.message)),
                               SetStatus(Linting.SetPrStatus(Some(info), Some(commentUrl)).value)]
                         else []
    ensures forall e | e in effects && e.SetStatus? && e.status.state == Linting.Success ::
              poll == Linting.Polled(true)
              && var targets := Linting.LintTargets(recipes, if repo == StagedRepo then baseRecipes else []);
                 targets != [] && Linting.AllPass(targets, linter)
  {
    var lintInfo := Linting.ComputeLintMessage(poll, sha, commitMessage, repo == StagedRepo,
                                               recipes, baseRecipes, linter, openAtEnd);
    effects := [];
    if lintInfo.None? {
      return;
    }
    effects := effects + [CommentOnPull(LintReport(lintInfo.value.message))];
    var status := Linting.SetPrStatus(lintInfo, Some(commentUrl));
    effects := effects + [SetStatus(status.value)];
    if poll == Linting.Polled(true) && !Linting.ShouldSkip(commitMessage) {
      var targets := Linting.LintTargets(recipes, if repo == StagedRepo then baseRecipes else []);
      Linting.SuccessIffLintFree(targets, linter, sha, Some(commentUrl));
    }
  }
}
