/**
 * The admin-command patterns of the bot and their case-insensitive `search`.
 *
 * Every pattern starts with the shared prefix
 *     "@nwb-extensions-" ("admin" | "linter") \s* [,:]? \s*
 * then an optional "please " and one of the command's words.
 *
 * InPrefix and InCommand say which (lower-cased) strings each pattern
 * accepts; PrefixOccurs and CommandOccurs say that `search` finds an
 * accepted substring. PrefixEnd and MatchAt are the matcher that runs;
 * MatchesIffOccurs and PrefixMatchesIffOccurs prove that it agrees with the
 * declarative languages on every text.
 */
module Grammar {
  import opened Wrappers
  import opened Text

  /** The four admin commands; each has its own compiled pattern. */
  datatype Command = Rerender | Lint | UpdateTeam | UpdateCircle

  /** Case-insensitive matching of the ASCII patterns compares lower-cased characters. */
  function LowerChar(c: char): char {
    if 'A' <= c <= 'Z' then (c as int + 32) as char else c
  }

  function Lower(s: string): (r: string)
    ensures |r| == |s|
    ensures forall k :: 0 <= k < |s| ==> r[k] == LowerChar(s[k])
  {
    seq(|s|, k requires 0 <= k < |s| => LowerChar(s[k]))
  }

  /** The characters `\s` matches in a Python `str` pattern (those for which `str.isspace` holds). */
  predicate IsSpace(c: char) {
    c == ' ' || '\t' <= c <= '\r' || '\U{1C}' <= c <= '\U{1F}' || c == '\U{85}' || c == '\U{A0}'
    || c == '\U{1680}' || '\U{2000}' <= c <= '\U{200A}' || c == '\U{2028}' || c == '\U{2029}'
    || c == '\U{202F}' || c == '\U{205F}' || c == '\U{3000}'
  }

  const Mention: string := "@nwb-extensions-"

  predicate IsHandle(h: string) { h == "admin" || h == "linter" }

  predicate IsSeparator(s: string) { s == "" || s == "," || s == ":" }

  predicate AllSpace(s: string) { forall k :: 0 <= k < |s| ==> IsSpace(s[k]) }

  predicate IsPlease(q: string) { q == "" || q == "please " }

  /** The words a command accepts after the prefix and the optional "please ". */
  function Words(c: Command): seq<string> {
    match c
    case Rerender => ["rerender", "re-render"]
    case Lint => ["lint", "relint", "re-lint"]
    case UpdateTeam => ["update team", "update the team", "refresh team", "refresh the team"]
    case UpdateCircle => ["update circle", "update the circle", "refresh circle", "refresh the circle"]
  }

  // ---------------------------------------------------------------------------
  // What the patterns accept
  // ---------------------------------------------------------------------------

  /** `s` is a match of the shared prefix pattern `pre`. */
  ghost predicate InPrefix(s: string) {
    exists h, w1, sep, w2 :: PrefixParts(s, h, w1, sep, w2)
  }

  /** `s` splits into a handle, whitespace, an optional separator and whitespace, after the mention. */
  ghost predicate PrefixParts(s: string, h: string, w1: string, sep: string, w2: string) {
    IsHandle(h) && AllSpace(w1) && IsSeparator(sep) && AllSpace(w2) && s == Mention + h + w1 + sep + w2
  }

  /** `s` is a match of the pattern of command `c`. */
  ghost predicate InCommand(c: Command, s: string) {
    exists p, q, n :: CommandParts(c, s, p, q, n)
  }

  /** `s` splits into a prefix match, an optional "please " and the `n`-th word of `c`. */
  ghost predicate CommandParts(c: Command, s: string, p: string, q: string, n: int) {
    InPrefix(p) && IsPlease(q) && 0 <= n < |Words(c)| && s == p + q + Words(c)[n]
  }

  /** `re.search(pre, text, re.I)` succeeds. */
  ghost predicate PrefixOccurs(text: string) {
    exists i, j :: 0 <= i <= j <= |text| && InPrefix(Lower(text)[i..j])
  }

  /** `re.search(pre + <tail of c>, text, re.I)` succeeds. */
  ghost predicate CommandOccurs(c: Command, text: string) {
    exists i, j :: 0 <= i <= j <= |text| && InCommand(c, Lower(text)[i..j])
  }

  // ---------------------------------------------------------------------------
  // The matcher
  // ---------------------------------------------------------------------------

  /** Longest run of whitespace starting at `k`: the end of a greedy `\s*`. */
  function SkipSpaces(t: string, k: nat): (r: nat)
    requires k <= |t|
    ensures k <= r <= |t|
    ensures AllSpace(t[k..r])
    ensures r == |t| || !IsSpace(t[r])
    decreases |t| - k
  {
    if k < |t| && IsSpace(t[k]) then
      var r := SkipSpaces(t, k + 1);
      assert forall m | 0 < m < r - k :: t[k..r][m] == t[k + 1..r][m - 1];
      r
    else k
  }

  /** End of a greedy `\s*[,:]?\s*` starting at `k`. */
  function SeparatorEnd(t: string, k: nat): (r: nat)
    requires k <= |t|
    ensures k <= r <= |t|
  {
    var a := SkipSpaces(t, k);
    var b := if a < |t| && (t[a] == ',' || t[a] == ':') then a + 1 else a;
    SkipSpaces(t, b)
  }

  /** Where the prefix pattern, tried at `i`, stops (greedily), or None when the mention is not at `i`. */
  function PrefixEnd(t: string, i: nat): (r: Option<nat>)
    requires i <= |t|
    ensures r.Some? ==> i < r.value <= |t|
  {
    if StartsAt(t, i, Mention + "admin") then Some(SeparatorEnd(t, i + |Mention + "admin"|))
    else if StartsAt(t, i, Mention + "linter") then Some(SeparatorEnd(t, i + |Mention + "linter"|))
    else None
  }

  /** End of a greedy `(please )?` starting at `k`. */
  function PleaseEnd(t: string, k: nat): (r: nat)
    requires k <= |t|
    ensures k <= r <= |t| && IsPlease(t[k..r])
  {
    if StartsAt(t, k, "please ") then k + |"please "| else k
  }

  /** The pattern of `c` matches the lower-cased text `t` at position `i`. */
  predicate MatchAt(c: Command, t: string, i: nat)
    requires i <= |t|
  {
    match PrefixEnd(t, i)
    case None => false
    case Some(k) =>
      var k' := PleaseEnd(t, k);
      exists n | 0 <= n < |Words(c)| :: StartsAt(t, k', Words(c)[n])
  }

  /** `COMMAND_PREFIX.search(text)` */
  predicate PrefixMatches(text: string) {
    var t := Lower(text);
    exists i: nat | i <= |t| :: PrefixEnd(t, i).Some?
  }

  /** `RERENDER_MSG.search(text)`, `LINT_MSG.search(text)`, ... for the pattern of `c` */
  predicate Matches(c: Command, text: string) {
    var t := Lower(text);
    exists i: nat | i <= |t| :: MatchAt(c, t, i)
  }

  // ---------------------------------------------------------------------------
  // The matcher agrees with the patterns
  // ---------------------------------------------------------------------------

  /** A run of `n` spaces followed by a non-space (or the end) is exactly what SkipSpaces consumes. */
  lemma SkipSpacesExact(t: string, k: nat, n: nat)
    requires k + n <= |t| && AllSpace(t[k..k + n])
    requires k + n == |t| || !IsSpace(t[k + n])
    ensures SkipSpaces(t, k) == k + n
  {
    var r := SkipSpaces(t, k);
    forall m | k <= m < k + n ensures IsSpace(t[m]) {
      assert t[k..k + n][m - k] == t[m];
    }
    forall m | k <= m < r ensures IsSpace(t[m]) {
      assert t[k..r][m - k] == t[m];
    }
  }

  /** A slice is the concatenation of the three slices that split it. */
  lemma SliceSplit(t: string, a: nat, b: nat, c: nat, d: nat)
    requires a <= b <= c <= d <= |t|
    ensures t[a..d] == t[a..b] + t[b..c] + t[c..d]
  {
  }

  /** Every word of every command starts with 'r', 'l' or 'u': never with a space, a separator or "p". */
  lemma WordShape(c: Command, n: nat)
    requires n < |Words(c)|
    ensures |Words(c)[n]| > 0 && Words(c)[n][0] in {'r', 'l', 'u'}
  {
  }

  /** The whitespace, separator and whitespace that the greedy SeparatorEnd consumed. */
  lemma SeparatorParts(t: string, k: nat) returns (w1: string, sep: string, w2: string)
    requires k <= |t|
    ensures AllSpace(w1) && IsSeparator(sep) && AllSpace(w2)
    ensures t[k..SeparatorEnd(t, k)] == w1 + sep + w2
  {
    var a := SkipSpaces(t, k);
    var b := if a < |t| && (t[a] == ',' || t[a] == ':') then a + 1 else a;
    var r := SkipSpaces(t, b);
    w1, sep, w2 := t[k..a], t[a..b], t[b..r];
    assert t[k..r] == w1 + sep + w2;
  }

  /** The handle PrefixEnd recognised at `i`. */
  lemma PrefixHandle(t: string, i: nat) returns (h: string)
    requires i <= |t| && PrefixEnd(t, i).Some?
    ensures IsHandle(h) && StartsAt(t, i, Mention + h)
    ensures PrefixEnd(t, i) == Some(SeparatorEnd(t, i + |Mention + h|))
  {
    h := if StartsAt(t, i, Mention + "admin") then "admin" else "linter";
  }

  lemma PrefixEndSound(t: string, i: nat)
    requires i <= |t| && PrefixEnd(t, i).Some?
    ensures InPrefix(t[i..PrefixEnd(t, i).value])
  {
    var h := PrefixHandle(t, i);
    var k := i + |Mention + h|;
    var w1, sep, w2 := SeparatorParts(t, k);
    InPrefixAt(t, i, k, SeparatorEnd(t, k), h, w1, sep, w2);
  }

  /** The mention and a handle at `i`, followed up to `r` by the whitespace and separator parts, match the prefix pattern. */
  lemma InPrefixAt(t: string, i: nat, k: nat, r: nat, h: string, w1: string, sep: string, w2: string)
    requires IsHandle(h) && AllSpace(w1) && IsSeparator(sep) && AllSpace(w2)
    requires StartsAt(t, i, Mention + h) && k == i + |Mention + h| && k <= r <= |t| && t[k..r] == w1 + sep + w2
    ensures InPrefix(t[i..r])
  {
    assert t[i..r] == t[i..k] + t[k..r];
    assert PrefixParts(t[i..r], h, w1, sep, w2);
  }

  lemma MatchAtSound(c: Command, t: string, i: nat)
    requires i <= |t| && MatchAt(c, t, i)
    ensures exists j :: i <= j <= |t| && InCommand(c, t[i..j])
  {
    var k := PrefixEnd(t, i).value;
    PrefixEndSound(t, i);
    var k' := PleaseEnd(t, k);
    var n :| 0 <= n < |Words(c)| && StartsAt(t, k', Words(c)[n]);
    var j := k' + |Words(c)[n]|;
    SliceSplit(t, i, k, k', j);
    InCommandIntro(c, t[i..j], t[i..k], t[k..k'], t[k'..j], n);
  }

  /** A prefix match, an optional "please " and a word of `c`, one after the other, match the pattern of `c`. */
  lemma InCommandIntro(c: Command, s: string, p: string, q: string, w: string, n: int)
    requires InPrefix(p) && IsPlease(q) && 0 <= n < |Words(c)| && w == Words(c)[n] && s == p + q + w
    ensures InCommand(c, s)
  {
    assert CommandParts(c, s, p, q, n);
  }

  /** The first letter of "please " or of a command word is neither whitespace nor a separator. */
  lemma WordStartIsPlain(x: char)
    requires x in {'p', 'r', 'l', 'u'}
    ensures !IsSpace(x) && x !in {',', ':'}
  {
  }

  lemma StartsAtConcat(t: string, k: nat, a: string, b: string)
    requires StartsAt(t, k, a + b)
    ensures StartsAt(t, k, a) && StartsAt(t, k + |a|, b)
  {
    assert t[k..k + |a|] == (a + b)[..|a|];
    assert t[k + |a|..k + |a| + |b|] == (a + b)[|a|..];
  }

  /** Where each of six consecutive pieces lies when their concatenation occurs at `i`. */
  lemma StartsAtSix(t: string, i: nat, m: string, w1: string, sep: string, w2: string, q: string, w: string)
    returns (p1: nat, p2: nat, p3: nat, p4: nat, p5: nat)
    requires StartsAt(t, i, m + w1 + sep + w2 + q + w)
    ensures p1 == i + |m| && p2 == p1 + |w1| && p3 == p2 + |sep| && p4 == p3 + |w2| && p5 == p4 + |q|
    ensures StartsAt(t, i, m) && StartsAt(t, p1, w1) && StartsAt(t, p2, sep)
    ensures StartsAt(t, p3, w2) && StartsAt(t, p4, q) && StartsAt(t, p5, w)
  {
    p1, p2, p3, p4, p5 := i + |m|, i + |m| + |w1|, i + |m| + |w1| + |sep|, i + |m| + |w1| + |sep| + |w2|,
                          i + |m| + |w1| + |sep| + |w2| + |q|;
    StartsAtConcat(t, i, m + w1 + sep + w2 + q, w);
    StartsAtConcat(t, i, m + w1 + sep + w2, q);
    StartsAtConcat(t, i, m + w1 + sep, w2);
    StartsAtConcat(t, i, m + w1, sep);
    StartsAtConcat(t, i, m, w1);
  }

  /** Splits a match of the pattern of `c` into its parts. */
  lemma CommandSplit(c: Command, t: string, i: nat, j: nat)
    returns (h: string, w1: string, sep: string, w2: string, q: string, n: nat)
    requires i <= j <= |t| && InCommand(c, t[i..j])
    ensures IsHandle(h) && AllSpace(w1) && IsSeparator(sep) && AllSpace(w2) && IsPlease(q) && n < |Words(c)|
    ensures StartsAt(t, i, Mention + h + w1 + sep + w2 + q + Words(c)[n])
  {
    var p, q', n' :| CommandParts(c, t[i..j], p, q', n');
    var h', w1', sep', w2' :| PrefixParts(p, h', w1', sep', w2');
    h, w1, sep, w2, q, n := h', w1', sep', w2', q', n';
  }

  /** When the mention with a handle is at `i`, the prefix pattern is tried from the end of the handle. */
  lemma PrefixEndAt(t: string, i: nat, h: string)
    requires IsHandle(h) && StartsAt(t, i, Mention + h)
    ensures PrefixEnd(t, i) == Some(SeparatorEnd(t, i + |Mention + h|))
  {
    if h == "linter" {
      assert t[i + 16] == 'l' by { assert (Mention + h)[16] == 'l'; }
      assert !StartsAt(t, i, Mention + "admin") by { assert (Mention + "admin")[16] == 'a'; }
    }
  }

  /** Greedy `\s*[,:]?\s*` consumes exactly the parts of a match when a non-space, non-separator follows. */
  lemma SeparatorEndExact(t: string, k: nat, a: nat, b: nat, e: nat, w1: string, sep: string, w2: string)
    requires AllSpace(w1) && IsSeparator(sep) && AllSpace(w2)
    requires a == k + |w1| && b == a + |sep| && e == b + |w2|
    requires StartsAt(t, k, w1) && StartsAt(t, a, sep) && StartsAt(t, b, w2)
    requires e < |t| && !IsSpace(t[e]) && t[e] !in {',', ':'}
    ensures SeparatorEnd(t, k) == e
  {
    if sep == "" {
      AllSpaceJoin(t, k, a, e);
      SkipSpacesExact(t, k, e - k);
      SkipSpacesExact(t, e, 0);
      assert SkipSpaces(t, k) == e && SkipSpaces(t, e) == e;
    } else {
      assert t[a] == sep[0];
      assert t[a] == ',' || t[a] == ':';
      SkipSpacesExact(t, k, |w1|);
      SkipSpacesExact(t, b, |w2|);
      assert SkipSpaces(t, k) == a && SkipSpaces(t, a + 1) == e;
    }
  }

  /** Two adjacent runs of whitespace make one. */
  lemma AllSpaceJoin(t: string, k: nat, a: nat, e: nat)
    requires k <= a <= e <= |t| && AllSpace(t[k..a]) && AllSpace(t[a..e])
    ensures AllSpace(t[k..e])
  {
    forall m | 0 <= m < e - k ensures IsSpace(t[k..e][m]) {
      if m < a - k {
        assert t[k..e][m] == t[k..a][m];
      } else {
        assert t[k..e][m] == t[a..e][m - (a - k)];
      }
    }
  }

  /** Greedy `(please )?` consumes exactly `q` when a command word follows it. */
  lemma PleaseEndExact(t: string, k: nat, kq: nat, q: string)
    requires IsPlease(q) && StartsAt(t, k, q) && kq == k + |q|
    requires kq < |t| && t[kq] in {'r', 'l', 'u'}
    ensures PleaseEnd(t, k) == kq
  {
    if q == "" {
      assert !StartsAt(t, k, "please ") by { assert "please "[0] == 'p'; }
    }
  }

  /** Where each part of a match of the pattern of `c` at `i` lies in `t`. */
  lemma CommandPartsAt(c: Command, t: string, i: nat, j: nat)
    returns (h: string, w1: string, sep: string, w2: string, q: string, n: nat,
             k0: nat, p2: nat, p3: nat, k: nat, kq: nat)
    requires i <= j <= |t| && InCommand(c, t[i..j])
    ensures IsHandle(h) && AllSpace(w1) && IsSeparator(sep) && AllSpace(w2) && IsPlease(q) && n < |Words(c)|
    ensures k0 == i + |Mention + h| && p2 == k0 + |w1| && p3 == p2 + |sep| && k == p3 + |w2| && kq == k + |q|
    ensures StartsAt(t, i, Mention + h) && StartsAt(t, k0, w1) && StartsAt(t, p2, sep) && StartsAt(t, p3, w2)
    ensures StartsAt(t, k, q) && StartsAt(t, kq, Words(c)[n])
    ensures kq < |t| && t[kq] in {'r', 'l', 'u'} && t[k] in {'p', 'r', 'l', 'u'}
  {
    h, w1, sep, w2, q, n := CommandSplit(c, t, i, j);
    var w := Words(c)[n];
    k0, p2, p3, k, kq := StartsAtSix(t, i, Mention + h, w1, sep, w2, q, w);
    WordShape(c, n);
    StartsAtFirst(t, kq, w);
    if q != "" {
      StartsAtFirst(t, k, q);
    }
  }

  /** The first character of a non-empty word occurring at `k` is `t[k]`. */
  lemma StartsAtFirst(t: string, k: nat, w: string)
    requires StartsAt(t, k, w) && |w| > 0
    ensures k < |t| && t[k] == w[0]
  {
    assert t[k..k + |w|][0] == t[k];
  }

  /** The prefix pattern tried at `i` ends exactly where the parts of a match end. */
  lemma PrefixEndParts(t: string, i: nat, h: string, w1: string, sep: string, w2: string,
                       k0: nat, p2: nat, p3: nat, k: nat)
    requires IsHandle(h) && AllSpace(w1) && IsSeparator(sep) && AllSpace(w2)
    requires k0 == i + |Mention + h| && p2 == k0 + |w1| && p3 == p2 + |sep| && k == p3 + |w2|
    requires StartsAt(t, i, Mention + h) && StartsAt(t, k0, w1) && StartsAt(t, p2, sep) && StartsAt(t, p3, w2)
    requires k < |t| && t[k] in {'p', 'r', 'l', 'u'}
    ensures PrefixEnd(t, i) == Some(k)
  {
    WordStartIsPlain(t[k]);
    PrefixEndAt(t, i, h);
    SeparatorEndExact(t, k0, p2, p3, k, w1, sep, w2);
  }

  lemma MatchAtParts(c: Command, t: string, i: nat, k: nat, kq: nat, n: nat)
    requires i <= |t| && k <= |t|
    requires PrefixEnd(t, i) == Some(k) && PleaseEnd(t, k) == kq && n < |Words(c)| && StartsAt(t, kq, Words(c)[n])
    ensures MatchAt(c, t, i)
  {
  }

  lemma MatchAtComplete(c: Command, t: string, i: nat, j: nat)
    requires i <= j <= |t| && InCommand(c, t[i..j])
    ensures MatchAt(c, t, i)
  {
    var h, w1, sep, w2, q, n, k0, p2, p3, k, kq := CommandPartsAt(c, t, i, j);
    PrefixEndParts(t, i, h, w1, sep, w2, k0, p2, p3, k);
    PleaseEndExact(t, k, kq, q);
    MatchAtParts(c, t, i, k, kq, n);
  }

  /** The matcher finds the pattern of `c` in `text` exactly when `re.search` would. */
  lemma MatchesIffOccurs(c: Command, text: string)
    ensures Matches(c, text) <==> CommandOccurs(c, text)
  {
    var t := Lower(text);
    if Matches(c, text) {
      var i: nat :| i <= |t| && MatchAt(c, t, i);
      MatchAtSound(c, t, i);
    }
    if CommandOccurs(c, text) {
      var i, j :| 0 <= i <= j <= |text| && InCommand(c, t[i..j]);
      MatchAtComplete(c, t, i, j);
    }
  }

  /** A match of the prefix pattern starting at `i` makes the matcher recognise the prefix at `i`. */
  lemma PrefixEndComplete(t: string, i: nat, j: nat)
    requires i <= j <= |t| && InPrefix(t[i..j])
    ensures PrefixEnd(t, i).Some?
  {
    var h, w1, sep, w2 :| PrefixParts(t[i..j], h, w1, sep, w2);
    assert StartsAt(t, i, (Mention + h) + (w1 + sep + w2)) by {
      assert Mention + h + w1 + sep + w2 == (Mention + h) + (w1 + sep + w2);
    }
    StartsAtConcat(t, i, Mention + h, w1 + sep + w2);
    PrefixEndAt(t, i, h);
  }

  /** The matcher finds the prefix in `text` exactly when `COMMAND_PREFIX.search` would. */
  lemma PrefixMatchesIffOccurs(text: string)
    ensures PrefixMatches(text) <==> PrefixOccurs(text)
  {
    var t := Lower(text);
    if PrefixMatches(text) {
      var i: nat :| i <= |t| && PrefixEnd(t, i).Some?;
      PrefixEndSound(t, i);
      assert InPrefix(t[i..PrefixEnd(t, i).value]);
    }
    if PrefixOccurs(text) {
      var i, j :| 0 <= i <= j <= |text| && InPrefix(t[i..j]);
      PrefixEndComplete(t, i, j);
    }
  }

  /** Every command pattern starts with the prefix pattern, so a command match is also a prefix match. */
  lemma CommandImpliesPrefix(c: Command, text: string)
    ensures Matches(c, text) ==> PrefixMatches(text)
  {
    var t := Lower(text);
    if Matches(c, text) {
      var i: nat :| i <= |t| && MatchAt(c, t, i);
      assert PrefixEnd(t, i).Some?;
    }
  }

  /** Lower-casing works character by character, so it distributes over concatenation. */
  lemma LowerConcat(a: string, b: string)
    ensures Lower(a + b) == Lower(a) + Lower(b)
  {
  }

  lemma OccursAt(c: Command, text: string, i: nat, j: nat)
    requires i <= j <= |text| && InCommand(c, Lower(text)[i..j])
    ensures CommandOccurs(c, text)
  {
  }

  lemma SliceOfRight(z: string, x: string, y: string, i: nat, j: nat)
    requires z == x + y && i <= j <= |y|
    ensures z[|x| + i..|x| + j] == y[i..j]
  {
  }

  lemma SliceOfLeft(z: string, x: string, y: string, i: nat, j: nat)
    requires z == x + y && i <= j <= |x|
    ensures z[i..j] == x[i..j]
  {
  }

  /** A command found in `b` is still found once text is put in front of it. */
  lemma MatchesAfter(c: Command, a: string, b: string)
    requires Matches(c, b)
    ensures Matches(c, a + b)
  {
    MatchesIffOccurs(c, b);
    OccursAfter(c, a, b);
    MatchesIffOccurs(c, a + b);
  }

  /** A command found in `a` is still found once text is put after it. */
  lemma MatchesBefore(c: Command, a: string, b: string)
    requires Matches(c, a)
    ensures Matches(c, a + b)
  {
    MatchesIffOccurs(c, a);
    OccursBefore(c, a, b);
    MatchesIffOccurs(c, a + b);
  }

  lemma OccursAfter(c: Command, a: string, b: string)
    requires CommandOccurs(c, b)
    ensures CommandOccurs(c, a + b)
  {
    var i, j :| 0 <= i <= j <= |b| && InCommand(c, Lower(b)[i..j]);
    LowerConcat(a, b);
    var la := Lower(a);
    SliceOfRight(Lower(a + b), la, Lower(b), i, j);
    OccursAt(c, a + b, |la| + i, |la| + j);
  }

  lemma OccursBefore(c: Command, a: string, b: string)
    requires CommandOccurs(c, a)
    ensures CommandOccurs(c, a + b)
  {
    var i, j :| 0 <= i <= j <= |a| && InCommand(c, Lower(a)[i..j]);
    LowerConcat(a, b);
    SliceOfLeft(Lower(a + b), Lower(a), Lower(b), i, j);
    OccursAt(c, a + b, i, j);
  }

}
