/**
 * The order in which port ids are compared. The source compares ids with
 * `String.prototype.localeCompare`, whose collation depends on the locale
 * (it orders letters case-insensitively first and puts punctuation such as
 * `_` before letters). This model uses plain lexicographic order on Dafny
 * characters instead; the two orders differ for ids that differ in case or
 * in punctuation.
 */
module StringOrder {

  /** `a` sorts before or equal to `b`: `a` is a prefix of `b`, or the first differing character of `a` is smaller. */
  predicate StrLeq(a: string, b: string)
    decreases |a|
  {
    |a| == 0 || (|b| > 0 && (a[0] < b[0] || (a[0] == b[0] && StrLeq(a[1..], b[1..]))))
  }

  lemma {:induction false} StrLeqReflexive(a: string)
    ensures StrLeq(a, a)
    decreases |a|
  {
    if |a| > 0 {
      StrLeqReflexive(a[1..]);
    }
  }

  /** Any two ids are comparable, so a descending sort is well defined. */
  lemma {:induction false} StrLeqTotal(a: string, b: string)
    ensures StrLeq(a, b) || StrLeq(b, a)
    decreases |a|
  {
    if |a| > 0 && |b| > 0 && a[0] == b[0] {
      StrLeqTotal(a[1..], b[1..]);
    }
  }

  lemma {:induction false} StrLeqTransitive(a: string, b: string, c: string)
    requires StrLeq(a, b) && StrLeq(b, c)
    ensures StrLeq(a, c)
    decreases |a|
  {
    if |a| > 0 && a[0] == b[0] && b[0] == c[0] {
      StrLeqTransitive(a[1..], b[1..], c[1..]);
    }
  }

  /** Two ids that compare equal both ways are the same id. */
  lemma {:induction false} StrLeqAntisymmetric(a: string, b: string)
    requires StrLeq(a, b) && StrLeq(b, a)
    ensures a == b
    decreases |a|
  {
    if |a| > 0 {
      StrLeqAntisymmetric(a[1..], b[1..]);
      assert a == [a[0]] + a[1..] && b == [b[0]] + b[1..];
    }
  }
}
