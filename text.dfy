/** String helpers standing for the Python `str` methods the source uses. */
module Text {

  /** `sep.join(parts)`. */
  function Join(sep: string, parts: seq<string>): string
  {
    if |parts| == 0 then ""
    else if |parts| == 1 then parts[0]
    else parts[0] + sep + Join(sep, parts[1..])
  }

  /** `s.startswith(p)`. */
  predicate StartsWith(s: string, p: string)
  {
    |p| <= |s| && s[..|p|] == p
  }

  predicate IsUpper(c: char) { 'A' <= c <= 'Z' }

  function LowerChar(c: char): char
  {
    if IsUpper(c) then (c as int + 32) as char else c
  }

  /** `s.lower()` on the ASCII letters. */
  function Lower(s: string): (r: string)
    ensures |r| == |s|
    ensures forall i :: 0 <= i < |s| ==> r[i] == LowerChar(s[i])
  {
    if |s| == 0 then "" else [LowerChar(s[0])] + Lower(s[1..])
  }

  lemma LowerHasNoUpper(s: string)
    ensures forall i :: 0 <= i < |Lower(s)| ==> !IsUpper(Lower(s)[i])
  {
  }

  /** `s.replace(p, "")`: every non-overlapping occurrence of `p`, scanned left to right, is dropped. */
  function RemoveAll(s: string, p: string): (r: string)
    requires |p| > 0
    ensures |r| <= |s|
  {
    if |s| == 0 then ""
    else if StartsWith(s, p) then RemoveAll(s[|p|..], p)
    else [s[0]] + RemoveAll(s[1..], p)
  }

  /** `p` stands in `s` from index `i` on. */
  predicate OccursAt(s: string, p: string, i: int)
  {
    0 <= i <= |s| - |p| && s[i..i + |p|] == p
  }

  /** `p` occurs somewhere in `s` (Python's `p in s`). */
  predicate Occurs(s: string, p: string)
  {
    exists i | 0 <= i <= |s| :: OccursAt(s, p, i)
  }

  /** An occurrence in the tail is an occurrence one place further on in `s`. */
  lemma OccursInTail(s: string, p: string)
    requires |s| > 0
    ensures Occurs(s[1..], p) ==> Occurs(s, p)
  {
    if Occurs(s[1..], p) {
      var i :| 0 <= i <= |s[1..]| && OccursAt(s[1..], p, i);
      assert s[1..][i..i + |p|] == s[i + 1..i + 1 + |p|];
      assert OccursAt(s, p, i + 1);
    }
  }

  /** An occurrence past the first position is an occurrence in the tail. */
  lemma OccursPastHead(s: string, p: string, i: int)
    requires OccursAt(s, p, i) && i > 0
    ensures OccursAt(s[1..], p, i - 1)
  {
    assert s[1..][i - 1..i - 1 + |p|] == s[i..i + |p|];
  }

  /** `s.replace(p, "")` leaves `s` unchanged exactly when `p` does not occur in it. */
  lemma {:induction false} RemoveAllUnchangedIff(s: string, p: string)
    requires |p| > 0
    ensures RemoveAll(s, p) == s <==> !Occurs(s, p)
  {
    if |s| == 0 {
    } else if StartsWith(s, p) {
      assert OccursAt(s, p, 0);
      assert |RemoveAll(s[|p|..], p)| < |s|;
    } else {
      RemoveAllUnchangedIff(s[1..], p);
      OccursInTail(s, p);
      assert RemoveAll(s, p) == [s[0]] + RemoveAll(s[1..], p);
      if Occurs(s, p) {
        var i :| 0 <= i <= |s| && OccursAt(s, p, i);
        assert i != 0;
        OccursPastHead(s, p, i);
        assert RemoveAll(s, p)[1..] == RemoveAll(s[1..], p);
      } else {
        assert s == [s[0]] + s[1..];
      }
    }
  }

  /** Index of the last `c` in `s`, or -1. */
  function LastIndexOf(s: string, c: char): (k: int)
    ensures -1 <= k < |s|
    ensures k >= 0 ==> s[k] == c
    ensures forall j :: k < j < |s| ==> s[j] != c
  {
    if |s| == 0 then -1
    else if s[|s| - 1] == c then |s| - 1
    else LastIndexOf(s[..|s| - 1], c)
  }

  /** A position holding `c` with no `c` after it is the last index of `c`. */
  lemma {:induction false} LastIndexOfAt(s: string, c: char, k: nat)
    requires k < |s| && s[k] == c
    requires forall j :: k < j < |s| ==> s[j] != c
    ensures LastIndexOf(s, c) == k
    decreases |s|
  {
    if k < |s| - 1 {
      LastIndexOfAt(s[..|s| - 1], c, k);
    }
  }

  /** `s.split(c)[-1]`: what follows the last `c` (all of `s` when there is none). */
  function AfterLast(s: string, c: char): string
  {
    s[LastIndexOf(s, c) + 1..]
  }

  /** `s.rsplit(c, 1)[0]`: what precedes the last `c` (all of `s` when there is none). */
  function BeforeLast(s: string, c: char): string
  {
    var k := LastIndexOf(s, c);
    if k < 0 then s else s[..k]
  }

  /** The two halves around the last separator give back the string, and the tail holds no separator. */
  lemma SplitLastRoundTrip(s: string, c: char)
    ensures c !in AfterLast(s, c)
    ensures c in s ==> BeforeLast(s, c) + [c] + AfterLast(s, c) == s
    ensures c !in s ==> BeforeLast(s, c) == s && AfterLast(s, c) == s
  {
    var k := LastIndexOf(s, c);
    if k >= 0 {
      assert s == s[..k] + [c] + s[k + 1..];
    } else {
      assert forall j :: 0 <= j < |s| ==> s[j] != c;
    }
  }

  /** What precedes the last `c` holds no character that `s` does not hold. */
  lemma BeforeLastWithout(s: string, c: char, d: char)
    requires d !in s
    ensures d !in BeforeLast(s, c)
  {
    var k := LastIndexOf(s, c);
    if k >= 0 {
      assert forall x :: x in s[..k] ==> x in s;
    }
  }

  function DigitChar(d: nat): char
    requires d < 10
  {
    "0123456789"[d]
  }

  /** `str(n)` for a Python int. */
  function NatToString(n: nat): (r: string)
    ensures |r| > 0
    decreases n
  {
    if n < 10 then [DigitChar(n)] else NatToString(n / 10) + [DigitChar(n % 10)]
  }

  function IntToString(i: int): (r: string)
    ensures |r| > 0
  {
    if i < 0 then "-" + NatToString(-i) else NatToString(i)
  }

  /** `s.endswith(p)`. */
  predicate EndsWith(s: string, p: string)
  {
    |p| <= |s| && s[|s| - |p|..] == p
  }

  /** A join begins with its first part. */
  lemma JoinStartsWith(sep: string, parts: seq<string>)
    requires |parts| > 0
    ensures StartsWith(Join(sep, parts), parts[0])
  {
    if |parts| > 1 {
      assert Join(sep, parts)[..|parts[0]|] == parts[0];
    }
  }
}
