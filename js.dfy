/**
 * The few pieces of JavaScript semantics the authentication core relies on:
 * truthiness of a string that may be undefined, the `||` operator on such
 * values, and `String.prototype.includes`.
 */
module Js {
  import opened Wrappers

  /** A string-or-undefined value is truthy when it is present and not the empty string. */
  predicate Truthy(v: Option<string>)
  {
    v.Some? && v.value != ""
  }

  /** `a || b`: the left operand when it is truthy, otherwise the right one, whatever it is. */
  function Or(a: Option<string>, b: Option<string>): (r: Option<string>)
    ensures Truthy(a) ==> r == a
    ensures !Truthy(a) ==> r == b
    ensures Truthy(r) <==> Truthy(a) || Truthy(b)
  {
    if Truthy(a) then a else b
  }

  /** `t` occurs in `s` starting at index `i`. */
  ghost predicate OccursAt(s: string, t: string, i: int)
  {
    0 <= i && i + |t| <= |s| && s[i..i + |t|] == t
  }

  lemma OccursAtShift(s: string, t: string, i: int)
    requires |s| > 0 && 0 <= i
    ensures OccursAt(s[1..], t, i) <==> OccursAt(s, t, i + 1)
  {
    if i + |t| <= |s| - 1 {
      assert s[1..][i..i + |t|] == s[i + 1..i + 1 + |t|];
    }
  }

  lemma {:induction false} OccursInTail(s: string, t: string)
    requires |s| > 0 && !OccursAt(s, t, 0)
    ensures (exists i :: OccursAt(s[1..], t, i)) <==> (exists i :: OccursAt(s, t, i))
  {
    if i :| OccursAt(s[1..], t, i) {
      OccursAtShift(s, t, i);
      assert OccursAt(s, t, i + 1);
    }
    if j :| OccursAt(s, t, j) {
      assert j != 0;
      OccursAtShift(s, t, j - 1);
      assert OccursAt(s[1..], t, j - 1);
    }
  }

  /** A string that lacks one of the characters of `t` does not include `t`. */
  lemma NotIncludedWithoutChar(s: string, t: string, k: int)
    requires 0 <= k < |t| && t[k] !in s
    ensures !Includes(s, t)
  {
    forall i | 0 <= i && i + |t| <= |s|
      ensures !OccursAt(s, t, i)
    {
      assert s[i..i + |t|][k] == s[i + k] && s[i + k] in s;
    }
  }

  /**
   * `s.includes(t)`: a left-to-right search for `t` in `s`. The empty string
   * is included in every string.
   */
  function Includes(s: string, t: string): (r: bool)
    ensures r <==> exists i :: OccursAt(s, t, i)
    decreases |s|
  {
    if |s| < |t| then
      assert forall i :: !OccursAt(s, t, i);
      false
    else if s[..|t|] == t then
      assert OccursAt(s, t, 0);
      true
    else
      assert |s| > 0;
      OccursInTail(s, t);
      Includes(s[1..], t)
  }
}
