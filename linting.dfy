/**
 * The linting service: deciding whether a pull request is linted at all,
 * which extensions are linted, what the verdict is, whether a comment is
 * posted, and which commit status is set.
 *
 * GitHub, git and the linter itself are oracles: their answers (the result
 * of polling for mergeability, the head commit, the recipe directories found
 * on the merge and base commits, the linter's result per recipe, whether the
 * pull request is still open at the end) are parameters.
 */
module Linting {
  import opened Wrappers
  import opened Text

  // ---------------------------------------------------------------------------
  // Skipping
  // ---------------------------------------------------------------------------

  const SkipMarkers: seq<string> := ["[ci skip]", "[skip ci]", "[lint skip]", "[skip lint]"]

  /** Whether one of `markers` occurs in `message`, checked marker by marker. */
  function AnyMarkerIn(markers: seq<string>, message: string): (r: bool)
    ensures r <==> exists k | 0 <= k < |markers| :: IsSubstring(markers[k], message)
  {
    if |markers| == 0 then false
    else
      assert forall k | 0 < k < |markers| :: markers[1..][k - 1] == markers[k];
      IsSubstring(markers[0], message) || AnyMarkerIn(markers[1..], message)
  }

  /** The head commit message asks for the linter to be skipped. */
  function ShouldSkip(commitMessage: string): (skip: bool)
    ensures skip <==> IsSubstring("[ci skip]", commitMessage) || IsSubstring("[skip ci]", commitMessage)
                      || IsSubstring("[lint skip]", commitMessage) || IsSubstring("[skip lint]", commitMessage)
  {
    assert SkipMarkers[0] == "[ci skip]" && SkipMarkers[1] == "[skip ci]";
    assert SkipMarkers[2] == "[lint skip]" && SkipMarkers[3] == "[skip lint]";
    AnyMarkerIn(SkipMarkers, commitMessage)
  }

  // ---------------------------------------------------------------------------
  // Which extensions are linted
  // ---------------------------------------------------------------------------

  /** Strictly increasing in Python's string order: sorted and free of duplicates. */
  predicate StrictlySorted(s: seq<string>) {
    forall i, j | 0 <= i < j < |s| :: Below(s[i], s[j])
  }

  /** Puts `x` in its place in a strictly sorted sequence that lacks it. */
  function Insert(s: seq<string>, x: string): (r: seq<string>)
    requires StrictlySorted(s) && x !in s
    ensures StrictlySorted(r)
    ensures forall y :: y in r <==> y in s || y == x
    ensures |r| == |s| + 1
  {
    if s == [] then [x]
    else if Below(x, s[0]) then
      assert forall j | 0 < j < |s| :: Below(x, s[j]) by {
        forall j | 0 < j < |s| ensures Below(x, s[j]) { BelowTransitive(x, s[0], s[j]); }
      }
      [x] + s
    else
      BelowTotal(x, s[0]);
      var rest := Insert(s[1..], x);
      assert forall y | y in rest :: Below(s[0], y) by {
        forall y | y in rest ensures Below(s[0], y) {
          if y != x {
            var j :| 0 <= j < |s[1..]| && s[1..][j] == y;
            assert s[j + 1] == y;
          }
        }
      }
      assert forall y :: y in s <==> y == s[0] || y in s[1..] by {
        assert s == [s[0]] + s[1..];
      }
      [s[0]] + rest
  }

  /** `sorted(set(recipes) - set(base))`: the recipes of the merge commit that are not on the base, in order. */
  function LintTargets(recipes: seq<string>, base: seq<string>): (r: seq<string>)
    ensures StrictlySorted(r)
    ensures forall x :: x in r <==> x in recipes && x !in base
  {
    if recipes == [] then []
    else
      var rest := LintTargets(recipes[1..], base);
      assert forall x :: x in recipes <==> x == recipes[0] || x in recipes[1..] by {
        assert recipes == [recipes[0]] + recipes[1..];
      }
      if recipes[0] in base || recipes[0] in rest then rest else Insert(rest, recipes[0])
  }

  /** A strictly sorted sequence holds no item twice. */
  lemma StrictlySortedDistinct(s: seq<string>)
    requires StrictlySorted(s)
    ensures forall i, j | 0 <= i < j < |s| :: s[i] != s[j]
  {
    forall i, j | 0 <= i < j < |s| ensures s[i] != s[j] {
      BelowIrreflexive(s[i]);
    }
  }

  /** Two strictly sorted sequences with the same items are equal: LintTargets is the one sorted list of its set. */
  lemma {:induction false} SortedSetIsUnique(a: seq<string>, b: seq<string>)
    requires StrictlySorted(a) && StrictlySorted(b)
    requires forall x :: x in a <==> x in b
    ensures a == b
    decreases |a|
  {
    if a != [] {
      assert a[0] in a;
      assert b != [];
    }
    if b != [] {
      assert b[0] in b;
      assert a != [];
    }
    if a != [] && b != [] {
      if a[0] != b[0] {
        assert a[0] in a && b[0] in b;
        var i :| 0 <= i < |a| && a[i] == b[0];
        var j :| 0 <= j < |b| && b[j] == a[0];
        BelowAsymmetric(a[0], a[i]);
        assert false;
      }
      forall x ensures x in a[1..] <==> x in b[1..] {
        if x in a[1..] {
          var i :| 0 <= i < |a[1..]| && a[1..][i] == x;
          BelowIrreflexive(x);
          assert Below(a[0], a[i + 1]);
          assert x in b && x != b[0];
          var j :| 0 <= j < |b| && b[j] == x;
          assert b[1..][j - 1] == x;
        }
        if x in b[1..] {
          var j :| 0 <= j < |b[1..]| && b[1..][j] == x;
          BelowIrreflexive(x);
          assert Below(b[0], b[j + 1]);
          assert x in a && x != a[0];
          var i :| 0 <= i < |a| && a[i] == x;
          assert a[1..][i - 1] == x;
        }
      }
      SortedSetIsUnique(a[1..], b[1..]);
      assert a == [a[0]] + a[1..] && b == [b[0]] + b[1..];
    }
  }

  // ---------------------------------------------------------------------------
  // Linting the extensions one by one
  // ---------------------------------------------------------------------------

  /** What the recipe linter gave for one extension directory: its lints and hints, or an exception. */
  datatype LinterRun = Linted(lints: seq<string>, hints: seq<string>) | Crashed

  /** The single lint recorded for an extension whose linting raised. */
  const CrashNotice: string :=
    "Failed to even lint the extension, probably because of a nwb-extensions-smithy bug :cry:. "
    + "This likely indicates a problem in your `ndx-meta.yaml`, though. "
    + "To get a traceback to help figure out what's going on, install nwb-extensions-smithy "
    + "and run `nwb extensions smithy recipe-lint .` from the extension directory. "

  /** A "For **recipe**:" section of the report, listing lints or hints. */
  datatype Block = Block(recipe: string, items: seq<string>)

  function LintsOf(run: LinterRun): (lints: seq<string>) {
    match run
    case Linted(lints, _) => lints
    case Crashed => [CrashNotice]
  }

  /** No extension yields a lint (a crash counts as one). */
  ghost predicate AllPass(recipes: seq<string>, linter: string -> LinterRun) {
    forall k | 0 <= k < |recipes| :: LintsOf(linter(recipes[k])) == []
  }

  /**
   * The value of the loop's `hints` variable after linting `recipes` in order:
   * every linted extension overwrites it, a crash leaves it as it was.
   */
  function HintsLeft(recipes: seq<string>, linter: string -> LinterRun): (hints: seq<string>) {
    if |recipes| == 0 then []
    else match linter(recipes[|recipes| - 1])
      case Linted(_, hints) => hints
      case Crashed => HintsLeft(recipes[..|recipes| - 1], linter)
  }

  /** The sections of the report, in the order the loop appends them. */
  function Blocks(recipes: seq<string>, linter: string -> LinterRun): (blocks: seq<Block>) {
    if |recipes| == 0 then []
    else
      var last := recipes[|recipes| - 1];
      var lints := LintsOf(linter(last));
      var hints := HintsLeft(recipes, linter);
      Blocks(recipes[..|recipes| - 1], linter)
      + (if lints != [] then [Block(last, lints)] else [])
      + (if hints != [] then [Block(last, hints)] else [])
  }

  /** The loop of `compute_lint_message` over the extensions to lint. */
  method LintRecipes(recipes: seq<string>, linter: string -> LinterRun)
    returns (allPass: bool, hints: seq<string>, messages: seq<Block>, linted: seq<string>)
    ensures allPass <==> AllPass(recipes, linter)
    ensures hints == HintsLeft(recipes, linter)
    ensures messages == Blocks(recipes, linter)
    ensures linted == recipes
  {
    allPass, hints, messages, linted := true, [], [], [];
    var i := 0;
    while i < |recipes|
      invariant 0 <= i <= |recipes|
      invariant allPass <==> AllPass(recipes[..i], linter)
      invariant hints == HintsLeft(recipes[..i], linter)
      invariant messages == Blocks(recipes[..i], linter)
      invariant linted == recipes[..i]
    {
      var recipe := recipes[i];
      assert recipes[..i + 1][..i] == recipes[..i];
      assert recipes[..i + 1][i] == recipe;
      linted := linted + [recipe];
      var lints: seq<string>;
      match linter(recipe) {
        case Linted(l, h) =>
          lints, hints := l, h;
        case Crashed =>
          lints := [CrashNotice];
      }
      if lints != [] {
        allPass := false;
        messages := messages + [Block(recipe, lints)];
      }
      if hints != [] {
        messages := messages + [Block(recipe, hints)];
      }
      i := i + 1;
    }
    assert recipes[..i] == recipes;
  }

  /** The hints left at the end are those of the last extension the linter did not crash on, or none. */
  lemma {:induction false} HintsLeftFromLastLinted(recipes: seq<string>, linter: string -> LinterRun, k: nat)
    requires k < |recipes| && linter(recipes[k]).Linted?
    requires forall m | k < m < |recipes| :: linter(recipes[m]).Crashed?
    ensures HintsLeft(recipes, linter) == linter(recipes[k]).hints
    decreases |recipes|
  {
    if k < |recipes| - 1 {
      var init := recipes[..|recipes| - 1];
      assert init[k] == recipes[k];
      forall m | k < m < |init| ensures linter(init[m]).Crashed? {
        assert init[m] == recipes[m];
      }
      HintsLeftFromLastLinted(init, linter, k);
    }
  }

  lemma {:induction false} HintsLeftAllCrashed(recipes: seq<string>, linter: string -> LinterRun)
    requires forall m | 0 <= m < |recipes| :: linter(recipes[m]).Crashed?
    ensures HintsLeft(recipes, linter) == []
    decreases |recipes|
  {
    if |recipes| > 0 {
      var init := recipes[..|recipes| - 1];
      forall m | 0 <= m < |init| ensures linter(init[m]).Crashed? {
        assert init[m] == recipes[m];
      }
      HintsLeftAllCrashed(init, linter);
    }
  }

  /** Every extension that yields lints gets a section listing exactly those lints. */
  lemma {:induction false} LintsReported(recipes: seq<string>, linter: string -> LinterRun, k: nat)
    requires k < |recipes| && LintsOf(linter(recipes[k])) != []
    ensures Block(recipes[k], LintsOf(linter(recipes[k]))) in Blocks(recipes, linter)
    decreases |recipes|
  {
    if k < |recipes| - 1 {
      var init := recipes[..|recipes| - 1];
      assert init[k] == recipes[k];
      LintsReported(init, linter, k);
    }
  }

  /** Every section names an extension that was linted and lists at least one item. */
  lemma {:induction false} BlocksNameLintedRecipes(recipes: seq<string>, linter: string -> LinterRun)
    ensures forall b | b in Blocks(recipes, linter) :: b.recipe in recipes && b.items != []
    decreases |recipes|
  {
    if |recipes| > 0 {
      var init := recipes[..|recipes| - 1];
      BlocksNameLintedRecipes(init, linter);
      forall b | b in Blocks(init, linter) ensures b.recipe in recipes {
        var j :| 0 <= j < |init| && init[j] == b.recipe;
        assert recipes[j] == b.recipe;
      }
    }
  }

  /**
   * An extension on which the linter crashes gets the crash notice, and then a
   * section repeating the hints of the extension linted before it: the loop's
   * `hints` variable is not reset by the exception.
   */
  lemma CrashRepeatsEarlierHints(recipes: seq<string>, r: string, linter: string -> LinterRun)
    requires linter(r).Crashed?
    ensures HintsLeft(recipes + [r], linter) == HintsLeft(recipes, linter)
    ensures Blocks(recipes + [r], linter) == Blocks(recipes, linter) + [Block(r, [CrashNotice])]
              + (if HintsLeft(recipes, linter) != [] then [Block(r, HintsLeft(recipes, linter))] else [])
  {
    assert (recipes + [r])[..|recipes|] == recipes;
  }

  // ---------------------------------------------------------------------------
  // The verdict
  // ---------------------------------------------------------------------------

  datatype Status = Good | Mixed | Bad | NoExtensions | MergeConflict

  /** The kind of message posted, with the parts of it that vary. */
  datatype LintMessage =
    | MergeConflictNotice
    | NoExtensionsNotice
    | GoodReport(recipes: seq<string>)
    | MixedReport(recipes: seq<string>, blocks: seq<Block>)
    | BadReport(recipes: seq<string>, blocks: seq<Block>)

  /** The lint information handed back: message, status and the head commit's sha. */
  datatype LintInfo = LintInfo(message: LintMessage, status: Status, sha: string)

  /** The message and status chosen after linting `targets`. */
  function Verdict(targets: seq<string>, linter: string -> LinterRun, sha: string): (info: LintInfo)
    ensures info.sha == sha && info.status != MergeConflict
    ensures info.status == NoExtensions <==> targets == []
    ensures info.status == Bad <==> targets != [] && !AllPass(targets, linter)
    ensures info.status == Mixed <==> targets != [] && AllPass(targets, linter) && HintsLeft(targets, linter) != []
    ensures info.status == Good <==> targets != [] && AllPass(targets, linter) && HintsLeft(targets, linter) == []
    ensures info.status == Good ==> info.message == GoodReport(targets)
    ensures info.status == Mixed ==> info.message == MixedReport(targets, Blocks(targets, linter))
    ensures info.status == Bad ==> info.message == BadReport(targets, Blocks(targets, linter))
  {
    var allPass := forall k | 0 <= k < |targets| :: LintsOf(linter(targets[k])) == [];
    var hints := HintsLeft(targets, linter);
    if targets == [] then LintInfo(NoExtensionsNotice, NoExtensions, sha)
    else if allPass && |hints| > 0 then LintInfo(MixedReport(targets, Blocks(targets, linter)), Mixed, sha)
    else if allPass then LintInfo(GoodReport(targets), Good, sha)
    else LintInfo(BadReport(targets, Blocks(targets, linter)), Bad, sha)
  }

  /**
   * Only the hints left by the last linted extension decide between "mixed" and
   * "good": with one extension carrying hints followed by a clean one, the
   * status is "good" and the good message, which lists no sections, is posted.
   */
  lemma EarlierHintsIgnored(a: string, b: string, hint: string, linter: string -> LinterRun, sha: string)
    requires linter(a) == Linted([], [hint]) && linter(b) == Linted([], [])
    ensures Blocks([a, b], linter) == [Block(a, [hint])]
    ensures Verdict([a, b], linter, sha) == LintInfo(GoodReport([a, b]), Good, sha)
  {
    assert [a, b][..1] == [a];
    assert [a][..0] == [];
    assert HintsLeft([a], linter) == [hint];
    assert Blocks([a], linter) == [Block(a, [hint])];
  }

  /** How polling the pull request for its mergeability ended. */
  datatype Poll = ClosedWhilePolling | Polled(mergeable: bool)

  /**
   * `compute_lint_message`: None stands for the empty dictionary (nothing to
   * report). `recipes` and `baseRecipes` are the extension directories found on
   * the merge commit and on the base commit; `openAtEnd` is whether the pull
   * request is still open once linting is done.
   */
  method ComputeLintMessage(poll: Poll, sha: string, commitMessage: string, ignoreBase: bool,
                            recipes: seq<string>, baseRecipes: seq<string>,
                            linter: string -> LinterRun, openAtEnd: bool)
    returns (info: Option<LintInfo>)
    ensures poll.ClosedWhilePolling? ==> info == None
    ensures poll.Polled? && ShouldSkip(commitMessage) ==> info == None
    ensures poll == Polled(false) && !ShouldSkip(commitMessage)
            ==> info == Some(LintInfo(MergeConflictNotice, MergeConflict, sha))
    ensures poll == Polled(true) && !ShouldSkip(commitMessage)
            ==> info == (if openAtEnd
                         then Some(Verdict(LintTargets(recipes, if ignoreBase then baseRecipes else []), linter, sha))
                         else None)
  {
    if poll.ClosedWhilePolling? {
      return None;
    }
    if ShouldSkip(commitMessage) {
      return None;
    }
    if !poll.mergeable {
      return Some(LintInfo(MergeConflictNotice, MergeConflict, sha));
    }
    var base: seq<string> := [];
    if ignoreBase {
      base := baseRecipes;
    }
    var prRecipes := LintTargets(recipes, base);
    var allPass, hints, messages, linted := LintRecipes(prRecipes, linter);
    var message: LintMessage;
    var status: Status;
    if prRecipes == [] {
      message, status := NoExtensionsNotice, NoExtensions;
    } else if allPass && |hints| > 0 {
      message, status := MixedReport(linted, messages), Mixed;
    } else if allPass {
      message, status := GoodReport(linted), Good;
    } else {
      message, status := BadReport(linted, messages), Bad;
    }
    if openAtEnd {
      info := Some(LintInfo(message, status, sha));
    } else {
      info := None;
    }
  }

  // ---------------------------------------------------------------------------
  // Commenting
  // ---------------------------------------------------------------------------

  datatype Comment = Comment(author: string, body: string)

  /** A comment the bot may reuse: its own, and containing `search` when one is given. */
  predicate Eligible(c: Comment, me: string, search: Option<string>) {
    c.author == me && (search.None? || IsSubstring(search.value, c.body))
  }

  /** The bot's comments, narrowed to those containing `search`, in their original order. */
  function Candidates(comments: seq<Comment>, me: string, search: Option<string>): (r: seq<Comment>)
    ensures forall c :: c in r <==> c in comments && Eligible(c, me, search)
  {
    if comments == [] then []
    else
      var init := comments[..|comments| - 1];
      var last := comments[|comments| - 1];
      assert comments == init + [last];
      Candidates(init, me, search) + (if Eligible(last, me, search) then [last] else [])
  }

  /** What `comment_on_pr` does: post a new comment, hand back an existing one, or fail on an empty list. */
  datatype CommentOutcome = Created | Reused(comment: Comment) | LookupFailed

  function CommentOnPr(comments: seq<Comment>, me: string, message: string, force: bool,
                       search: Option<string>): (r: CommentOutcome)
    ensures force ==> r == Created
    ensures r.LookupFailed? <==>
              !force && search.Some? && (exists c | c in comments :: c.author == me)
              && !(exists c | c in comments :: Eligible(c, me, search))
    ensures r.Reused? ==> r.comment in comments && Eligible(r.comment, me, search) && r.comment.body == message
  {
    if force then Created
    else if !(exists c | c in comments :: c.author == me) then Created
    else
      var mine := Candidates(comments, me, search);
      assert search.None? ==> forall c | c in comments && c.author == me :: c in mine;
      if mine == [] then LookupFailed
      else
        assert mine[|mine| - 1] in mine;
        if mine[|mine| - 1].body != message then Created
      else Reused(mine[|mine| - 1])
  }

  /** Without `force`, the comment compared with the message is the last eligible one. */
  lemma ComparesLastEligible(comments: seq<Comment>, me: string, message: string, search: Option<string>, k: nat)
    requires k < |comments| && Eligible(comments[k], me, search)
    requires forall m | k < m < |comments| :: !Eligible(comments[m], me, search)
    ensures CommentOnPr(comments, me, message, false, search)
            == if comments[k].body == message then Reused(comments[k]) else Created
  {
    LastCandidate(comments, me, search, k);
    assert comments[k] in comments;
  }

  lemma {:induction false} LastCandidate(comments: seq<Comment>, me: string, search: Option<string>, k: nat)
    requires k < |comments| && Eligible(comments[k], me, search)
    requires forall m | k < m < |comments| :: !Eligible(comments[m], me, search)
    ensures var mine := Candidates(comments, me, search); mine != [] && mine[|mine| - 1] == comments[k]
    decreases |comments|
  {
    if k < |comments| - 1 {
      var init := comments[..|comments| - 1];
      assert init[k] == comments[k];
      forall m | k < m < |init| ensures !Eligible(init[m], me, search) {
        assert init[m] == comments[m];
      }
      LastCandidate(init, me, search, k);
    }
  }

  /**
   * Idempotence: when the search text (if any) occurs in the message, a second
   * call with the same message right after the first never posts again.
   */
  lemma PostsAtMostOnce(comments: seq<Comment>, me: string, message: string, search: Option<string>)
    requires search.None? || IsSubstring(search.value, message)
    ensures var first := CommentOnPr(comments, me, message, false, search);
            var after := if first.Created? then comments + [Comment(me, message)] else comments;
            !CommentOnPr(after, me, message, false, search).Created?
  {
    var first := CommentOnPr(comments, me, message, false, search);
    if first.Created? {
      var after := comments + [Comment(me, message)];
      ComparesLastEligible(after, me, message, search, |comments|);
    }
  }

  /**
   * The condition of `PostsAtMostOnce` is needed: when the search text is not
   * in the message, the comment just posted is not eligible, the older one is
   * compared again, and the second call posts a second copy.
   */
  lemma RepostsWhenSearchMissingFromMessage(me: string, oldBody: string, message: string, search: string)
    requires IsSubstring(search, oldBody) && !IsSubstring(search, message) && oldBody != message
    ensures CommentOnPr([Comment(me, oldBody)], me, message, false, Some(search)) == Created
    ensures CommentOnPr([Comment(me, oldBody), Comment(me, message)], me, message, false, Some(search)) == Created
  {
    ComparesLastEligible([Comment(me, oldBody)], me, message, Some(search), 0);
    ComparesLastEligible([Comment(me, oldBody), Comment(me, message)], me, message, Some(search), 0);
  }

  // ---------------------------------------------------------------------------
  // Commit status
  // ---------------------------------------------------------------------------

  datatype CommitState = Success | Failure

  /** A status set on a commit. */
  datatype CommitStatus = CommitStatus(sha: string, state: CommitState, description: string, context: string,
                                       targetUrl: Option<string>)

  const LinterContext: string := "nwb-extensions-linter"
  const GoodDescription: string := "All extensions are excellent."
  const MixedDescription: string := "Some extensions have hints."
  const BadDescription: string := "Some extensions need some changes."

  /** `set_pr_status`: the status set on the head commit, if any. */
  function SetPrStatus(info: Option<LintInfo>, targetUrl: Option<string>): (r: Option<CommitStatus>)
    ensures r.Some? <==> info.Some?
    ensures r.Some? ==> r.value.sha == info.value.sha && r.value.context == LinterContext
                        && r.value.targetUrl == targetUrl
    ensures r.Some? ==> (r.value.state == Success <==> info.value.status in {Good, Mixed})
    ensures r.Some? && info.value.status == Good ==> r.value.description == GoodDescription
    ensures r.Some? && info.value.status == Mixed ==> r.value.description == MixedDescription
    ensures r.Some? && info.value.status !in {Good, Mixed} ==> r.value.description == BadDescription
  {
    match info
    case None => None
    case Some(li) =>
      var state := if li.status == Good || li.status == Mixed then Success else Failure;
      var description := match li.status
        case Good => GoodDescription
        case Mixed => MixedDescription
        case _ => BadDescription;
      Some(CommitStatus(li.sha, state, description, LinterContext, targetUrl))
  }

  /** A commit is marked successful exactly when there was something to lint and nothing yielded a lint. */
  lemma SuccessIffLintFree(targets: seq<string>, linter: string -> LinterRun, sha: string, url: Option<string>)
    ensures SetPrStatus(Some(Verdict(targets, linter, sha)), url).value.state == Success
            <==> targets != [] && AllPass(targets, linter)
  {
  }
}
