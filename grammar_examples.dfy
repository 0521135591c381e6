/**
 * A selection of texts from the bot's own list of accepted and rejected
 * commands, checked against the patterns.
 *
 * Each example takes its text as a parameter that a `requires` pins to the
 * literal, written as the concatenation of the pieces the proof hands to
 * `AcceptedPieces` (an empty piece stands for an absent optional part). A
 * bare literal in the proof would make the verifier unfold `Lower` and
 * `Matches` over the whole text at once; the pieces keep each step small.
 */
module GrammarExamples {
  import opened Wrappers
  import opened Text
  import opened Grammar

  /** A text whose lower-cased form is exactly a command match, split into its parts, is accepted. */
  lemma AcceptedByParts(c: Command, text: string, h: string, w1: string, sep: string, w2: string, q: string, n: nat)
    requires IsHandle(h) && AllSpace(w1) && IsSeparator(sep) && AllSpace(w2) && IsPlease(q) && n < |Words(c)|
    requires Lower(text) == Mention + h + w1 + sep + w2 + q + Words(c)[n]
    ensures Matches(c, text)
  {
    var p := Mention + h + w1 + sep + w2;
    assert PrefixParts(p, h, w1, sep, w2);
    assert CommandParts(c, p + q + Words(c)[n], p, q, n);
    assert Lower(text)[0..|text|] == Lower(text);
    OccursAt(c, text, 0, |text|);
    MatchesIffOccurs(c, text);
  }

  /** Lower-casing seven pieces one by one lower-cases their concatenation. */
  lemma LowerSeven(p1: string, p2: string, p3: string, p4: string, p5: string, p6: string, p7: string)
    ensures Lower(p1 + p2 + p3 + p4 + p5 + p6 + p7)
            == Lower(p1) + Lower(p2) + Lower(p3) + Lower(p4) + Lower(p5) + Lower(p6) + Lower(p7)
  {
    LowerConcat(p1 + p2 + p3 + p4 + p5 + p6, p7);
    LowerConcat(p1 + p2 + p3 + p4 + p5, p6);
    LowerConcat(p1 + p2 + p3 + p4, p5);
    LowerConcat(p1 + p2 + p3, p4);
    LowerConcat(p1 + p2, p3);
    LowerConcat(p1, p2);
  }

  /**
   * A text written as seven pieces, which lower-case to the mention, a handle,
   * whitespace, a separator, whitespace, an optional "please " and a word of
   * `c`, is accepted.
   */
  lemma AcceptedPieces(c: Command, text: string, p1: string, p2: string, p3: string, p4: string, p5: string,
                       p6: string, p7: string, n: nat)
    requires text == p1 + p2 + p3 + p4 + p5 + p6 + p7
    requires Lower(p1) == Mention && IsHandle(Lower(p2)) && AllSpace(Lower(p3)) && IsSeparator(Lower(p4))
    requires AllSpace(Lower(p5)) && IsPlease(Lower(p6)) && n < |Words(c)| && Lower(p7) == Words(c)[n]
    ensures Matches(c, text)
  {
    LowerSeven(p1, p2, p3, p4, p5, p6, p7);
    AcceptedByParts(c, text, Lower(p2), Lower(p3), Lower(p4), Lower(p5), Lower(p6), n);
  }

  /** How the pieces the examples are written in lower-case. */
  lemma LowerMentions()
    ensures Lower("@nwb-extensions-") == Mention && Lower("@NWB-EXTENSIONS-") == Mention
  {
  }

  lemma LowerShortPieces()
    ensures Lower("") == "" && Lower(",") == "," && Lower(":") == ":" && Lower(" ") == " "
    ensures Lower("admin") == "admin" && Lower("linter") == "linter" && Lower("LINTER") == "linter"
    ensures Lower("please ") == "please " && Lower("PLEASE ") == "please "
  {
  }

  lemma PleaseRerenderAccepted(text: string)
    requires text == "@nwb-extensions-" + "admin" + "" + "," + " " + "please " + "rerender"
    ensures Matches(Rerender, text)
  {
    LowerMentions();
    LowerShortPieces();
    assert Lower("rerender") == Words(Rerender)[0];
    AcceptedPieces(Rerender, text, "@nwb-extensions-", "admin", "", ",", " ", "please ", "rerender", 0);
  }

  lemma RerenderAfterTextAccepted(text: string, command: string)
    requires command == "@nwb-extensions-" + "admin" + "" + ":" + " " + "" + "re-render"
    requires text == "something something. " + command
    ensures Matches(Rerender, text)
  {
    LowerMentions();
    LowerShortPieces();
    assert Lower("re-render") == Words(Rerender)[1];
    AcceptedPieces(Rerender, command, "@nwb-extensions-", "admin", "", ":", " ", "", "re-render", 1);
    MatchesAfter(Rerender, "something something. ", command);
  }

  lemma LinterReLintAccepted(text: string, command: string)
    requires command == "@nwb-extensions-" + "linter" + " " + "" + "" + "please " + "re-lint"
    requires text == "hey " + command + "!"
    ensures Matches(Lint, text)
  {
    LowerMentions();
    LowerShortPieces();
    assert Lower("re-lint") == Words(Lint)[2];
    AcceptedPieces(Lint, command, "@nwb-extensions-", "linter", " ", "", "", "please ", "re-lint", 2);
    MatchesAfter(Lint, "hey ", command);
    MatchesBefore(Lint, "hey " + command, "!");
  }

  lemma UpperCaseRelintAccepted(text: string)
    requires text == "@NWB-EXTENSIONS-" + "LINTER" + "" + "," + " " + "" + "relint"
    ensures Matches(Lint, text)
  {
    LowerMentions();
    LowerShortPieces();
    assert Lower("relint") == Words(Lint)[1];
    AcceptedPieces(Lint, text, "@NWB-EXTENSIONS-", "LINTER", "", ",", " ", "", "relint", 1);
  }

  lemma UpdateTheTeamAccepted(text: string)
    requires text == "@nwb-extensions-" + "admin" + "" + "," + " " + "please " + "update the team"
    ensures Matches(UpdateTeam, text)
  {
    LowerMentions();
    LowerShortPieces();
    assert Lower("update the team") == Words(UpdateTeam)[1];
    AcceptedPieces(UpdateTeam, text, "@nwb-extensions-", "admin", "", ",", " ", "please ", "update the team", 1);
  }

  lemma RefreshCircleKeyAccepted(text: string, command: string)
    requires command == "@nwb-extensions-" + "admin" + "" + ":" + " " + "" + "refresh the circle"
    requires text == command + " key"
    ensures Matches(UpdateCircle, text)
  {
    LowerMentions();
    LowerShortPieces();
    assert Lower("refresh the circle") == Words(UpdateCircle)[3];
    AcceptedPieces(UpdateCircle, command, "@nwb-extensions-", "admin", "", ":", " ", "", "refresh the circle", 3);
    MatchesBefore(UpdateCircle, command, " key");
  }

  /** The matcher only ever matches where an '@' stands. */
  lemma MatchAtMention(c: Command, t: string, i: nat)
    requires i <= |t| && MatchAt(c, t, i)
    ensures i < |t| && t[i] == '@'
  {
    var h := PrefixHandle(t, i);
    assert t[i] == (Mention + h)[0];
  }

  /** A lower-case text whose only '@' is its first character is rejected when the pattern does not match there. */
  lemma RejectedWithOneMention(c: Command, text: string)
    requires Lower(text) == text && |text| > 0 && '@' !in text[1..]
    requires !MatchAt(c, text, 0)
    ensures !Matches(c, text)
  {
    forall i: nat | i <= |text|
      ensures !MatchAt(c, text, i)
    {
      if i > 0 && MatchAt(c, text, i) {
        MatchAtMention(c, text, i);
      }
    }
  }

  /** Lower-casing four pieces that are already lower-case leaves their concatenation alone. */
  lemma LowerPieces(a: string, b: string, c: string, d: string)
    requires Lower(a) == a && Lower(b) == b && Lower(c) == c && Lower(d) == d
    ensures Lower(a + b + c + d) == a + b + c + d
  {
    LowerConcat(a + b + c, d);
    LowerConcat(a + b, c);
    LowerConcat(a, b);
  }

  lemma ShouldProbablyLintRejected(text: string)
    requires text == "@nwb-extensions-" + "admin should" + " probably" + " lint again"
    ensures !Matches(Lint, text)
  {
    OneLowerMention(text, "@nwb-extensions-", "admin should", " probably", " lint again");
    ShouldProbablyLintHead(text);
    RejectedWithOneMention(Lint, text);
  }

  /** A text of four lower-case pieces whose only '@' is its first character. */
  lemma OneLowerMention(text: string, a: string, b: string, c: string, d: string)
    requires text == a + b + c + d && |a| > 0 && a[0] == '@'
    requires Lower(a) == a && Lower(b) == b && Lower(c) == c && Lower(d) == d
    requires '@' !in a[1..] && '@' !in b && '@' !in c && '@' !in d
    ensures Lower(text) == text && '@' !in text[1..]
  {
    LowerPieces(a, b, c, d);
    assert text[1..] == a[1..] + b + c + d;
  }

  /** After the mention and one space the matcher meets "should", which is not a lint word. */
  lemma ShouldProbablyLintHead(t: string)
    requires t == "@nwb-extensions-" + "admin should" + " probably" + " lint again"
    ensures !MatchAt(Lint, t, 0)
  {
    assert t[21] == ' ' && t[22] == 's';
    assert SkipSpaces(t, 22) == 22;
    assert SkipSpaces(t, 21) == 22;
    assert PrefixEnd(t, 0) == Some(22) by {
      assert StartsAt(t, 0, Mention + "admin");
    }
    assert PleaseEnd(t, 22) == 22;
    forall n | 0 <= n < |Words(Lint)|
      ensures !StartsAt(t, 22, Words(Lint)[n])
    {
      WordShape(Lint, n);
    }
  }

  lemma GoAheadRerenderRejected(text: string)
    requires text == "@nwb-extensions-" + "admin, go ahead" + " and rerender" + " for me"
    ensures !Matches(Rerender, text)
  {
    OneLowerMention(text, "@nwb-extensions-", "admin, go ahead", " and rerender", " for me");
    GoAheadRerenderHead(text);
    RejectedWithOneMention(Rerender, text);
  }

  /** After the mention, the comma and one space the matcher meets "go", which is not a rerender word. */
  lemma GoAheadRerenderHead(t: string)
    requires t == "@nwb-extensions-" + "admin, go ahead" + " and rerender" + " for me"
    ensures !MatchAt(Rerender, t, 0)
  {
    assert t[21] == ',' && t[22] == ' ' && t[23] == 'g';
    assert SkipSpaces(t, 21) == 21;
    assert SkipSpaces(t, 23) == 23;
    assert SkipSpaces(t, 22) == 23;
    assert PrefixEnd(t, 0) == Some(23) by {
      assert StartsAt(t, 0, Mention + "admin");
    }
    assert PleaseEnd(t, 23) == 23;
    forall n | 0 <= n < |Words(Rerender)|
      ensures !StartsAt(t, 23, Words(Rerender)[n])
    {
      WordShape(Rerender, n);
    }
  }
}
