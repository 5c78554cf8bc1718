/** The few string operations the marketplace uses: `toLowerCase` (over ASCII
    letters), `includes` and `split(sep)[0]`. */
module Text {

  /** Lower-cases an ASCII capital letter; every other character is kept. */
  function Lower(c: char): (d: char)
    ensures 'A' <= c <= 'Z' ==> 'a' <= d <= 'z' && d as int - c as int == 32
    ensures !('A' <= c <= 'Z') ==> d == c
  {
    if 'A' <= c <= 'Z' then (c as int + 32) as char else c
  }

  /** `s.toLowerCase()`, character by character. */
  function LowerStr(s: string): (r: string)
    ensures |r| == |s|
    ensures forall i :: 0 <= i < |s| ==> r[i] == Lower(s[i])
    decreases |s|
  {
    if s == [] then [] else [Lower(s[0])] + LowerStr(s[1..])
  }

  /** Lowering twice is lowering once, so a search term that is already lower
      case searches exactly like its original. */
  lemma LowerStrIdempotent(s: string)
    ensures LowerStr(LowerStr(s)) == LowerStr(s)
  {
  }

  /** `s.includes(t)`: `t` occurs somewhere in `s` as a contiguous block. */
  predicate Includes(s: string, t: string)
    decreases |s|
  {
    if |t| > |s| then false
    else s[..|t|] == t || Includes(s[1..], t)
  }

  /** A copy of `t` starts at position `i` of `s`. */
  predicate OccursAt(s: string, t: string, i: int)
  {
    0 <= i <= |s| - |t| && s[i..i + |t|] == t
  }

  /** Some position of `s` starts a copy of `t`. */
  ghost predicate Occurs(s: string, t: string)
  {
    exists i :: OccursAt(s, t, i)
  }

  /** Positions in the tail of `s` are the positions of `s` shifted by one. */
  lemma OccursAtTail(s: string, t: string, i: int)
    requires |s| > 0 && 0 <= i
    ensures OccursAt(s[1..], t, i) <==> OccursAt(s, t, i + 1)
  {
    if 0 <= i <= |s| - 1 - |t| {
      assert s[1..][i..i + |t|] == s[i + 1..i + 1 + |t|];
    }
  }

  /** `Includes` means exactly: some position of `s` starts a copy of `t`. */
  lemma {:induction false} IncludesIffOccurrence(s: string, t: string)
    ensures Includes(s, t) <==> Occurs(s, t)
    decreases |s|
  {
    if |t| <= |s| && s[..|t|] != t {
      IncludesIffOccurrence(s[1..], t);
      if Includes(s[1..], t) {
        var i :| OccursAt(s[1..], t, i);
        OccursAtTail(s, t, i);
      }
      if Occurs(s, t) {
        var i :| OccursAt(s, t, i);
        assert i != 0;
        OccursAtTail(s, t, i - 1);
      }
    } else if |t| <= |s| {
      assert OccursAt(s, t, 0);
    }
  }

  /** The empty string occurs in every string. */
  lemma IncludesEmpty(s: string)
    ensures Includes(s, [])
  {
  }

  /** `s.split(sep)[0]`: the text of `s` before its first `sep`, or all of
      `s` when it holds no `sep`. */
  function BeforeFirst(s: string, sep: char): (r: string)
    ensures |r| <= |s| && r == s[..|r|]
    ensures sep !in r
    ensures |r| < |s| ==> s[|r|] == sep
    ensures sep !in s ==> r == s
    decreases |s|
  {
    if s == [] then []
    else if s[0] == sep then []
    else [s[0]] + BeforeFirst(s[1..], sep)
  }
}
