/**
 * Updating a feedstock's maintenance team: which members are mentioned, how
 * the commit comment is composed, and when it is posted.
 *
 * The team configuration itself (rendering the recipe, creating the team,
 * inviting people) is an oracle: its three answers, the current maintainers,
 * the previous maintainers and the people newly invited to the organisation,
 * are parameters, as is the set of members that are never mentioned.
 */
module Teams {
  import opened Wrappers
  import opened Text

  const FeedstockSuffix: string := "-feedstock"

  /** `filter_members`: the members not in `filterOut`, in their original order. */
  function FilterMembers(members: seq<string>, filterOut: set<string>): (kept: seq<string>)
    ensures forall m :: m in kept <==> m in members && m !in filterOut
    ensures |kept| <= |members|
  {
    if members == [] then []
    else
      assert forall m :: m in members <==> m == members[0] || m in members[1..] by {
        assert members == [members[0]] + members[1..];
      }
      (if members[0] in filterOut then [] else [members[0]]) + FilterMembers(members[1..], filterOut)
  }

  /** Filtering keeps the order: it works piece by piece on a concatenation. */
  lemma {:induction false} FilterMembersAppend(a: seq<string>, b: seq<string>, filterOut: set<string>)
    ensures FilterMembers(a + b, filterOut) == FilterMembers(a, filterOut) + FilterMembers(b, filterOut)
    decreases |a|
  {
    if a != [] {
      assert (a + b)[0] == a[0];
      assert (a + b)[1..] == a[1..] + b;
      FilterMembersAppend(a[1..], b, filterOut);
    } else {
      assert a + b == b;
    }
  }

  /** Each member's GitHub handle, "@" followed by the login. */
  function AtHandles(members: seq<string>): (handles: seq<string>)
    ensures |handles| == |members|
    ensures forall k | 0 <= k < |members| :: handles[k] == "@" + members[k]
  {
    if members == [] then [] else ["@" + members[0]] + AtHandles(members[1..])
  }

  /** `get_handles`: the kept members' handles, separated by ", ". */
  function GetHandles(members: seq<string>, filterOut: set<string>): (handles: string)
    ensures FilterMembers(members, filterOut) == [] ==> handles == ""
    ensures var kept := FilterMembers(members, filterOut);
            kept != [] ==> |handles| > |kept[0]| && handles[..|kept[0]| + 1] == "@" + kept[0]
  {
    var hs := AtHandles(FilterMembers(members, filterOut));
    if hs == [] then Join(hs, ", ")
    else JoinStartsWithFirst(hs, ", "); Join(hs, ", ")
  }

  /** The handle text is empty exactly when no member is kept. */
  lemma GetHandlesEmpty(members: seq<string>, filterOut: set<string>)
    ensures GetHandles(members, filterOut) == "" <==> FilterMembers(members, filterOut) == []
  {
    var hs := AtHandles(FilterMembers(members, filterOut));
    if hs != [] {
      assert |hs[0]| > 0;
      JoinStartsWithFirst(hs, ", ");
    }
  }

  lemma JoinStartsWithFirst(xs: seq<string>, sep: string)
    requires xs != []
    ensures |Join(xs, sep)| >= |xs[0]| && Join(xs, sep)[..|xs[0]|] == xs[0]
  {
    if |xs| > 1 {
      assert Join(xs, sep) == xs[0] + (sep + Join(xs[1..], sep));
    }
  }

  /** The verb agreeing with a handle list: "were" when it holds a comma, "was" otherwise. */
  function Verb(handles: string): (verb: string)
    ensures verb == "were" || verb == "was"
    ensures verb == "were" <==> ',' in handles
  {
    if ',' in handles then "were" else "was"
  }

  /**
   * Logins never contain a comma, so the verb is "were" exactly when two or
   * more members are mentioned.
   */
  lemma VerbAgreesWithCount(members: seq<string>, filterOut: set<string>)
    requires forall k | 0 <= k < |members| :: ',' !in members[k]
    ensures Verb(GetHandles(members, filterOut)) == "were" <==> |FilterMembers(members, filterOut)| >= 2
  {
    var kept := FilterMembers(members, filterOut);
    var hs := AtHandles(kept);
    var s := Join(hs, ", ");
    if |hs| >= 2 {
      JoinStartsWithFirst(hs, ", ");
      assert s == hs[0] + ", " + Join(hs[1..], ", ");
      assert s[|hs[0]|] == ',';
    } else if |hs| == 1 {
      assert kept[0] in members;
      var k :| 0 <= k < |members| && members[k] == kept[0];
      assert s == "@" + kept[0];
      assert ',' !in s;
    }
  }

  /** `current - prev - new`: the current maintainers who were neither maintainers before nor newly invited. */
  function AddedMaintainers(current: seq<string>, prev: set<string>, newOrg: seq<string>): (added: seq<string>)
    ensures forall m :: m in added <==> m in current && m !in prev && m !in newOrg
  {
    FilterMembers(current, prev + set m | m in newOrg)
  }

  /** `str.replace(pat, "")`: every occurrence of `pat` removed, scanning from the left. */
  function RemoveAll(s: string, pat: string): (r: string)
    requires |pat| > 0
    ensures |r| <= |s|
    ensures !IsSubstring(pat, s) ==> r == s
    decreases |s|
  {
    if |s| < |pat| then s
    else if StartsAt(s, 0, pat) then RemoveAll(s[|pat|..], pat)
    else
      SubstringOfTail(pat, s);
      [s[0]] + RemoveAll(s[1..], pat)
  }

  /** An occurrence in the tail of a text is an occurrence in the text. */
  lemma SubstringOfTail(pat: string, s: string)
    requires |s| > 0
    ensures IsSubstring(pat, s[1..]) ==> IsSubstring(pat, s)
  {
    if IsSubstring(pat, s[1..]) {
      var k: nat :| k <= |s[1..]| && StartsAt(s[1..], k, pat);
      assert s[k + 1..k + 1 + |pat|] == s[1..][k..k + |pat|];
      assert StartsAt(s, k + 1, pat);
    }
  }

  /**
   * The project name handed to the team configuration: the repository name
   * with every "-feedstock" taken out, unchanged when it holds none.
   */
  function ProjectName(repoName: string): (name: string)
    ensures |name| <= |repoName|
    ensures !IsSubstring(FeedstockSuffix, repoName) ==> name == repoName
  {
    RemoveAll(repoName, FeedstockSuffix)
  }

  /** The project name of "x-feedstock" is x, for any x that does not itself hold "-feedstock". */
  lemma {:induction false} ProjectNameOfFeedstock(x: string)
    requires !IsSubstring(FeedstockSuffix, x)
    ensures ProjectName(x + FeedstockSuffix) == x
    decreases |x|
  {
    var pat := FeedstockSuffix;
    var s := x + pat;
    if x == [] {
      assert s == pat;
      assert StartsAt(s, 0, pat);
      assert s[|pat|..] == [];
    } else {
      assert !StartsAt(s, 0, pat) by {
        if |x| >= |pat| {
          assert s[..|pat|] == x[..|pat|];
          assert !StartsAt(x, 0, pat);
        } else {
          assert s[|x|] == '-';
          assert forall k | 0 < k < |pat| :: pat[k] != '-';
        }
      }
      SubstringOfTail(pat, x);
      assert s[1..] == x[1..] + pat;
      ProjectNameOfFeedstock(x[1..]);
      assert x == [x[0]] + x[1..];
    }
  }

  /** The parts of the commit comment, in order. */
  datatype Note =
    | Greeting
    | WelcomeToOrganisation(handles: string, verb: string)
    | AddedToTeam(handles: string, verb: string)
    | PushAccessAdvice

  /** What `update_team` asks of GitHub. */
  datatype TeamEffect = ConfigureTeam(project: string) | CommitComment(commit: string, notes: seq<Note>)

  /**
   * `update_team`. `commit` is None when no commit is given; a commit comment
   * is posted only for a non-empty commit id and when somebody is mentioned.
   */
  method UpdateTeam(repoName: string, commit: Option<string>, filterOut: set<string>,
                    current: seq<string>, prev: set<string>, newOrg: seq<string>)
    returns (effects: seq<TeamEffect>)
    ensures !EndsWith(repoName, FeedstockSuffix) ==> effects == []
    ensures EndsWith(repoName, FeedstockSuffix) ==> |effects| >= 1 && effects[0] == ConfigureTeam(ProjectName(repoName))
    ensures |effects| == 2 <==>
              EndsWith(repoName, FeedstockSuffix) && commit.Some? && commit.value != ""
              && (FilterMembers(newOrg, filterOut) != []
                  || FilterMembers(AddedMaintainers(current, prev, newOrg), filterOut) != [])
    ensures |effects| <= 2
    ensures |effects| == 2 ==>
              var newm := GetHandles(newOrg, filterOut);
              var addm := GetHandles(AddedMaintainers(current, prev, newOrg), filterOut);
              effects[1] == CommitComment(commit.value,
                [Greeting]
                + (if newm != "" then [WelcomeToOrganisation(newm, Verb(newm))] else [])
                + (if addm != "" then [AddedToTeam(addm, Verb(addm))] else [])
                + [PushAccessAdvice])
  {
    effects := [];
    if !EndsWith(repoName, FeedstockSuffix) {
      return;
    }
    effects := effects + [ConfigureTeam(ProjectName(repoName))];
    if commit.Some? && commit.value != "" {
      var newm := GetHandles(newOrg, filterOut);
      var addm := GetHandles(AddedMaintainers(current, prev, newOrg), filterOut);
      GetHandlesEmpty(newOrg, filterOut);
      GetHandlesEmpty(AddedMaintainers(current, prev, newOrg), filterOut);
      var message := CommitNotes(newm, addm);
      if addm != "" || newm != "" {
        effects := effects + [CommitComment(commit.value, message)];
      }
    }
  }

  /**
   * The commit comment for the handles of the new organisation members and of
   * the members added to the team: a greeting, a line for each non-empty list,
   * and the push-access advice when either list is non-empty.
   */
  method CommitNotes(newm: string, addm: string) returns (message: seq<Note>)
    ensures |message| >= 1 && message[0] == Greeting
    ensures WelcomeToOrganisation(newm, Verb(newm)) in message <==> newm != ""
    ensures AddedToTeam(addm, Verb(addm)) in message <==> addm != ""
    ensures PushAccessAdvice in message <==> addm != "" || newm != ""
    ensures addm != "" || newm != "" ==>
              message == [Greeting]
                         + (if newm != "" then [WelcomeToOrganisation(newm, Verb(newm))] else [])
                         + (if addm != "" then [AddedToTeam(addm, Verb(addm))] else [])
                         + [PushAccessAdvice]
  {
    message := [Greeting];
    if newm != "" {
      message := message + [WelcomeToOrganisation(newm, Verb(newm))];
    }
    if addm != "" {
      message := message + [AddedToTeam(addm, Verb(addm))];
    }
    if addm != "" || newm != "" {
      message := message + [PushAccessAdvice];
    }
  }

  /** Nobody is ever welcomed or added twice over: the two lists mention different people. */
  lemma AddedAreNotNew(current: seq<string>, prev: set<string>, newOrg: seq<string>, filterOut: set<string>)
    ensures forall m | m in FilterMembers(AddedMaintainers(current, prev, newOrg), filterOut)
              :: m !in FilterMembers(newOrg, filterOut) && m !in prev
  {
  }
}
