/**
 * The string rules the scripts rely on.
 *
 * `LessEq` is the order in which the document store compares string field
 * values (lexicographic by code point); `Contains` and `EndsWith` are
 * JavaScript's `String.prototype.includes` and `String.prototype.endsWith`.
 */
module Strings {

  /** Lexicographic order by code point: `a` sorts before or equal to `b`. */
  predicate LessEq(a: string, b: string)
  {
    if a == [] then true
    else if b == [] then false
    else if a[0] != b[0] then a[0] < b[0]
    else LessEq(a[1..], b[1..])
  }

  lemma {:induction false} LessEqTotal(a: string, b: string)
    ensures LessEq(a, b) || LessEq(b, a)
  {
    if a != [] && b != [] && a[0] == b[0] {
      LessEqTotal(a[1..], b[1..]);
    }
  }

  lemma {:induction false} LessEqTransitive(a: string, b: string, c: string)
    requires LessEq(a, b) && LessEq(b, c)
    ensures LessEq(a, c)
  {
    if a != [] && b != [] && c != [] && a[0] == b[0] && b[0] == c[0] {
      LessEqTransitive(a[1..], b[1..], c[1..]);
    }
  }

  /** `s` starts with `t`. */
  predicate StartsWith(s: string, t: string)
  {
    |t| <= |s| && s[..|t|] == t
  }

  /** `s.includes(t)`: `t` occurs in `s` at some offset. */
  predicate Contains(s: string, t: string)
    decreases |s|
  {
    StartsWith(s, t) || (s != [] && Contains(s[1..], t))
  }

  /** `s.endsWith(t)`. */
  predicate EndsWith(s: string, t: string)
  {
    |t| <= |s| && s[|s| - |t|..] == t
  }

  /** `t` occurs in `s` starting at offset `i`. */
  predicate OccursAt(s: string, t: string, i: int)
  {
    0 <= i <= |s| - |t| && s[i..i + |t|] == t
  }

  /** `Contains` agrees with the offset definition of a substring. */
  lemma {:induction false} ContainsAt(s: string, t: string)
    ensures Contains(s, t) <==> exists i :: OccursAt(s, t, i)
    decreases |s|
  {
    if s != [] {
      ContainsAt(s[1..], t);
      if StartsWith(s, t) {
        assert s[0..|t|] == s[..|t|];
        assert OccursAt(s, t, 0);
      }
      if Contains(s[1..], t) {
        var i :| OccursAt(s[1..], t, i);
        assert s[i + 1..i + 1 + |t|] == s[1..][i..i + |t|];
        assert OccursAt(s, t, i + 1);
      }
      if i :| OccursAt(s, t, i) {
        if i > 0 {
          assert s[1..][i - 1..i - 1 + |t|] == s[i..i + |t|];
          assert OccursAt(s[1..], t, i - 1);
          assert Contains(s[1..], t);
        } else {
          assert s[..|t|] == s[i..i + |t|];
          assert StartsWith(s, t);
        }
      }
    } else {
      if Contains(s, t) {
        assert OccursAt(s, t, 0);
      }
      if i :| OccursAt(s, t, i) {
        assert StartsWith(s, t);
      }
    }
  }

  /** A string that ends with `t` contains `t`. */
  lemma {:induction false} EndsWithContains(s: string, t: string)
    ensures EndsWith(s, t) ==> Contains(s, t)
    decreases |s|
  {
    if EndsWith(s, t) && !StartsWith(s, t) {
      assert |t| < |s|;
      assert s[1..][|s[1..]| - |t|..] == s[|s| - |t|..];
      EndsWithContains(s[1..], t);
    }
  }

  /** Every string contains itself, and the empty string occurs in every string. */
  lemma ContainsSelfAndEmpty(s: string)
    ensures Contains(s, s)
    ensures Contains(s, "")
  {
    assert s[..|s|] == s;
    assert s[..0] == "";
  }
}
