/**
  The JavaScript string operations the request layer relies on:
  `split` on one character, `indexOf`, `replace` with a string pattern
  (first occurrence only), `startsWith`, and ASCII lower-casing.
*/
module Text {

  /** The parts of `s` between occurrences of `sep`, as `s.split(sep)` for a one-character separator. */
  function Split(s: string, sep: char): (parts: seq<string>)
    ensures |parts| >= 1
    ensures forall k :: 0 <= k < |parts| ==> sep !in parts[k]
    decreases |s|
  {
    if |s| == 0 then [""]
    else
      var rest := Split(s[1..], sep);
      if s[0] == sep then [""] + rest
      else [[s[0]] + rest[0]] + rest[1..]
  }

  /** `parts.join(sep)`. */
  function Join(parts: seq<string>, sep: string): string
    decreases |parts|
  {
    if |parts| == 0 then ""
    else if |parts| == 1 then parts[0]
    else parts[0] + sep + Join(parts[1..], sep)
  }

  /** Joining the parts of a split restores the string. */
  lemma {:induction false} JoinSplit(s: string, sep: char)
    ensures Join(Split(s, sep), [sep]) == s
    decreases |s|
  {
    if |s| > 0 {
      var rest := Split(s[1..], sep);
      JoinSplit(s[1..], sep);
      if s[0] == sep {
        assert Split(s, sep) == [""] + rest;
        assert ([""] + rest)[1..] == rest;
        assert s == [sep] + s[1..];
      } else {
        var parts := [[s[0]] + rest[0]] + rest[1..];
        assert Split(s, sep) == parts;
        if |rest| == 1 {
          assert rest == [rest[0]];
          assert s == [s[0]] + s[1..];
        } else {
          assert parts[1..] == rest[1..];
          assert Join(rest, [sep]) == rest[0] + [sep] + Join(rest[1..], [sep]);
          assert s == [s[0]] + s[1..];
        }
      }
    }
  }

  /** Splitting a separator-free text yields that text alone. */
  lemma {:induction false} SplitPlain(p: string, sep: char)
    requires sep !in p
    ensures Split(p, sep) == [p]
    decreases |p|
  {
    if |p| > 0 {
      SplitPlain(p[1..], sep);
      assert [p[0]] + p[1..] == p;
    }
  }

  /** A separator-free prefix followed by the separator becomes one whole part. */
  lemma {:induction false} SplitCons(p: string, t: string, sep: char)
    requires sep !in p
    ensures Split(p + [sep] + t, sep) == [p] + Split(t, sep)
    decreases |p|
  {
    var s := p + [sep] + t;
    if |p| == 0 {
      assert s[0] == sep && s[1..] == t;
    } else {
      assert s[0] == p[0] && s[1..] == p[1..] + [sep] + t;
      SplitCons(p[1..], t, sep);
      assert [p[0]] + p[1..] == p;
    }
  }

  /** Splitting a join of separator-free parts gives back the parts. */
  lemma {:induction false} SplitJoin(parts: seq<string>, sep: char)
    requires |parts| >= 1
    requires forall k :: 0 <= k < |parts| ==> sep !in parts[k]
    ensures Split(Join(parts, [sep]), sep) == parts
    decreases |parts|
  {
    if |parts| == 1 {
      SplitPlain(parts[0], sep);
    } else {
      SplitJoin(parts[1..], sep);
      SplitCons(parts[0], Join(parts[1..], [sep]), sep);
      assert [parts[0]] + parts[1..] == parts;
    }
  }

  /** `s.startsWith(prefix)`. */
  predicate StartsWith(s: string, prefix: string) {
    |prefix| <= |s| && s[..|prefix|] == prefix
  }

  predicate OccursAt(s: string, pat: string, i: int) {
    0 <= i && i + |pat| <= |s| && s[i..i + |pat|] == pat
  }

  /** `s.indexOf(pat)`: the first position where `pat` occurs, or -1. */
  function IndexOf(s: string, pat: string): (i: int)
    ensures i == -1 || 0 <= i <= |s| - |pat|
    ensures i >= 0 ==> OccursAt(s, pat, i)
    ensures forall j :: 0 <= j <= |s| && (i < 0 || j < i) ==> !OccursAt(s, pat, j)
    decreases |s|
  {
    if |s| < |pat| then -1
    else if s[..|pat|] == pat then 0
    else
      var k := IndexOf(s[1..], pat);
      assert forall j :: 1 <= j && OccursAt(s, pat, j) ==> OccursAt(s[1..], pat, j - 1) by {
        forall j | 1 <= j && OccursAt(s, pat, j) ensures OccursAt(s[1..], pat, j - 1) {
          assert s[1..][j - 1..j - 1 + |pat|] == s[j..j + |pat|];
        }
      }
      if k < 0 then -1
      else
        assert s[1..][k..k + |pat|] == s[k + 1..k + 1 + |pat|];
        k + 1
  }

  /** `s.replace(pat, rep)` with a string pattern: only the first occurrence is replaced. */
  function ReplaceFirst(s: string, pat: string, rep: string): (r: string)
    ensures (forall j :: 0 <= j <= |s| ==> !OccursAt(s, pat, j)) ==> r == s
    ensures forall i :: OccursAt(s, pat, i) && (forall j :: 0 <= j < i ==> !OccursAt(s, pat, j)) ==>
                        r == s[..i] + rep + s[i + |pat|..]
  {
    var i := IndexOf(s, pat);
    if i < 0 then s else s[..i] + rep + s[i + |pat|..]
  }

  /** Removing a leading pattern with `replace(pat, "")` gives back the rest of the text. */
  lemma StripLeading(pat: string, rest: string)
    ensures ReplaceFirst(pat + rest, pat, "") == rest
  {
  }

  /** ASCII lower-casing, the case folding of a regular expression without the `u` flag on these letters. */
  function LowerChar(c: char): char {
    if 'A' <= c <= 'Z' then (c as int + 32) as char else c
  }
}
