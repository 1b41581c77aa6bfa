/** The three string operations of Python the code generator is built from:
    `sep.join(parts)`, `s.replace(old, new)` and `s.lower()`. */
module Strings {

  /** `pat` occurs in `s` starting at index `i`. */
  predicate OccursAt(pat: string, s: string, i: int) {
    0 <= i && i + |pat| <= |s| && s[i..i + |pat|] == pat
  }

  /** An occurrence in `s[1..]` is an occurrence in `s`, one index later. */
  lemma OccursInTail(pat: string, s: string)
    requires |s| > 0
    ensures forall i :: OccursAt(pat, s[1..], i) ==> OccursAt(pat, s, i + 1)
  {
    forall i | OccursAt(pat, s[1..], i)
      ensures OccursAt(pat, s, i + 1)
    {
      assert s[1..][i..i + |pat|] == s[i + 1..i + 1 + |pat|];
    }
  }

  /** `sep.join(parts)`: the parts in order, with `sep` between neighbours. */
  function Join(sep: string, parts: seq<string>): (r: string)
    ensures |parts| > 0 ==> parts[0] <= r
    decreases |parts|
  {
    if |parts| == 0 then ""
    else if |parts| == 1 then parts[0]
    else parts[0] + sep + Join(sep, parts[1..])
  }

  /** Appending a part adds one separator and the part, and nothing after it:
      a join never ends with a trailing separator. */
  lemma {:induction false} JoinAppend(sep: string, parts: seq<string>, last: string)
    requires |parts| > 0
    ensures Join(sep, parts + [last]) == Join(sep, parts) + sep + last
    decreases |parts|
  {
    if |parts| == 1 {
      assert parts + [last] == [parts[0], last];
    } else {
      assert (parts + [last])[1..] == parts[1..] + [last];
      JoinAppend(sep, parts[1..], last);
    }
  }

  /** A character found in neither the separator nor any part is not in the
      join either. */
  lemma {:induction false} JoinKeepsOut(c: char, sep: string, parts: seq<string>)
    requires c !in sep
    requires forall i :: 0 <= i < |parts| ==> c !in parts[i]
    ensures c !in Join(sep, parts)
    decreases |parts|
  {
    if |parts| > 1 {
      assert forall i :: 0 <= i < |parts[1..]| ==> parts[1..][i] == parts[i + 1];
      JoinKeepsOut(c, sep, parts[1..]);
      assert c !in parts[0];
    }
  }

  /** Two parts are joined by one separator. */
  lemma JoinTwo(sep: string, a: string, b: string)
    ensures Join(sep, [a, b]) == a + sep + b
  {
    assert [a, b][1..] == [b];
  }

  /** Prefixing the first part with `c` prefixes the whole join with `c`. */
  lemma JoinExtendFirst(sep: string, c: string, parts: seq<string>)
    requires |parts| > 0
    ensures Join(sep, [c + parts[0]] + parts[1..]) == c + Join(sep, parts)
  {
    var p := [c + parts[0]] + parts[1..];
    if |parts| > 1 {
      assert p[1..] == parts[1..];
    }
  }

  /** `s.replace(pat, rep)` for a non-empty `pat`: scanning left to right,
      every occurrence of `pat` that does not overlap an earlier replaced one
      is replaced by `rep`. */
  function ReplaceAll(s: string, pat: string, rep: string): (r: string)
    requires |pat| > 0
    ensures rep == pat ==> r == s
    decreases |s|
  {
    if |s| < |pat| then s
    else if s[..|pat|] == pat then
      assert s == s[..|pat|] + s[|pat|..];
      rep + ReplaceAll(s[|pat|..], pat, rep)
    else
      assert s == [s[0]] + s[1..];
      [s[0]] + ReplaceAll(s[1..], pat, rep)
  }

  /** `s.split(pat)`: the pieces between the occurrences `ReplaceAll` finds. */
  function Split(s: string, pat: string): (pieces: seq<string>)
    requires |pat| > 0
    ensures |pieces| > 0
    decreases |s|
  {
    if |s| < |pat| then [s]
    else if s[..|pat|] == pat then [""] + Split(s[|pat|..], pat)
    else
      var t := Split(s[1..], pat);
      [[s[0]] + t[0]] + t[1..]
  }

  /** No piece of a split contains the pattern: every occurrence the
      left-to-right scan of `ReplaceAll` takes is a boundary between two
      pieces, and no piece holds an occurrence it skipped over. */
  lemma {:induction false} SplitPiecesFree(s: string, pat: string)
    requires |pat| > 0
    ensures forall k, i :: 0 <= k < |Split(s, pat)| ==> !OccursAt(pat, Split(s, pat)[k], i)
    decreases |s|
  {
    var pieces := Split(s, pat);
    if |s| < |pat| {
    } else if s[..|pat|] == pat {
      SplitPiecesFree(s[|pat|..], pat);
      assert pieces == [""] + Split(s[|pat|..], pat);
    } else {
      var t := Split(s[1..], pat);
      SplitPiecesFree(s[1..], pat);
      assert pieces == [[s[0]] + t[0]] + t[1..];
      SplitJoinRoundTrip(s[1..], pat);
      HeadPieceFree(s, pat, t[0]);
      forall k, i | 0 < k < |pieces|
        ensures !OccursAt(pat, pieces[k], i)
      {
        assert pieces[k] == t[k];
      }
    }
  }

  /** The first piece of a split that does not start with the pattern: the
      first character glued to the first piece of the rest. */
  lemma HeadPieceFree(s: string, pat: string, first: string)
    requires 0 < |pat| <= |s| && s[..|pat|] != pat
    requires first <= s[1..]
    requires forall i :: !OccursAt(pat, first, i)
    ensures forall i :: !OccursAt(pat, [s[0]] + first, i)
  {
    var head := [s[0]] + first;
    assert head <= s;
    forall i
      ensures !OccursAt(pat, head, i)
    {
      if 0 < i && i + |pat| <= |head| {
        assert head[i..i + |pat|] == first[i - 1..i - 1 + |pat|];
        assert !OccursAt(pat, first, i - 1);
      }
    }
  }

  /** Replacing is splitting at the pattern and joining with the replacement:
      Python's `s.replace(a, b) == b.join(s.split(a))`. */
  lemma {:induction false} ReplaceIsJoinOfSplit(s: string, pat: string, rep: string)
    requires |pat| > 0
    ensures ReplaceAll(s, pat, rep) == Join(rep, Split(s, pat))
    decreases |s|
  {
    if |s| < |pat| {
    } else if s[..|pat|] == pat {
      var rest := Split(s[|pat|..], pat);
      ReplaceIsJoinOfSplit(s[|pat|..], pat, rep);
      assert ([""] + rest)[1..] == rest;
    } else {
      ReplaceIsJoinOfSplit(s[1..], pat, rep);
      JoinExtendFirst(rep, [s[0]], Split(s[1..], pat));
    }
  }

  /** Round trip: joining the pieces of a split with the pattern gives back the string. */
  lemma SplitJoinRoundTrip(s: string, pat: string)
    requires |pat| > 0
    ensures Join(pat, Split(s, pat)) == s
  {
    ReplaceIsJoinOfSplit(s, pat, pat);
  }

  /** A prefix that does not contain the pattern's first character is copied
      unchanged, and replacing goes on right after it. */
  lemma {:induction false} ReplaceSkipsPlainPrefix(a: string, b: string, pat: string, rep: string)
    requires |pat| > 0
    requires pat[0] !in a
    ensures ReplaceAll(a + b, pat, rep) == a + ReplaceAll(b, pat, rep)
    decreases |a|
  {
    if |a| > 0 {
      var s := a + b;
      if |s| >= |pat| {
        assert s[..|pat|][0] == a[0] != pat[0];
      } else {
        assert ReplaceAll(b, pat, rep) == b;
      }
      assert s[1..] == a[1..] + b;
      ReplaceSkipsPlainPrefix(a[1..], b, pat, rep);
    } else {
      assert a + b == b;
    }
  }

  /** A string in which the pattern does not occur is left unchanged. */
  lemma {:induction false} ReplaceAbsent(s: string, pat: string, rep: string)
    requires |pat| > 0
    requires forall i :: !OccursAt(pat, s, i)
    ensures ReplaceAll(s, pat, rep) == s
    decreases |s|
  {
    if |s| >= |pat| {
      assert !OccursAt(pat, s, 0);
      OccursInTail(pat, s);
      ReplaceAbsent(s[1..], pat, rep);
    }
  }

  /** A pattern cannot occur where its first character does not. */
  lemma FirstCharAbsent(s: string, pat: string)
    requires |pat| > 0
    requires pat[0] !in s
    ensures forall i :: !OccursAt(pat, s, i)
  {
  }

  /** A single placeholder between two plain texts is replaced, the texts kept. */
  lemma ReplacePlaceholder(a: string, b: string, pat: string, rep: string)
    requires |pat| > 0
    requires pat[0] !in a && pat[0] !in b
    ensures ReplaceAll(a + pat + b, pat, rep) == a + rep + b
  {
    ReplaceSkipsPlainPrefix(a, pat + b, pat, rep);
    assert a + pat + b == a + (pat + b);
    assert (pat + b)[..|pat|] == pat;
    assert (pat + b)[|pat|..] == b;
    FirstCharAbsent(b, pat);
    ReplaceAbsent(b, pat, rep);
  }

  /** `c.lower()` on ASCII letters. */
  function LowerChar(c: char): char {
    if 'A' <= c <= 'Z' then (c as int - 'A' as int + 'a' as int) as char else c
  }

  /** `s.lower()`, character by character: every upper-case letter becomes
      its lower-case counterpart, and every other character is kept. */
  function Lower(s: string): (r: string)
    ensures |r| == |s|
    ensures forall i :: 0 <= i < |r| ==> !('A' <= r[i] <= 'Z')
    ensures forall i :: 0 <= i < |s| && 'A' <= s[i] <= 'Z' ==> r[i] as int == s[i] as int + 32
    ensures forall i :: 0 <= i < |s| && !('A' <= s[i] <= 'Z') ==> r[i] == s[i]
  {
    seq(|s|, i requires 0 <= i < |s| => LowerChar(s[i]))
  }

  /** The lower-case forms of the model family names. */
  lemma LowerFamilyWords()
    ensures Lower("Normal") == "normal" && Lower("Gamma") == "gamma"
    ensures Lower("Lognormal") == "lognormal" && Lower("Weibull") == "weibull"
  {
  }
}
