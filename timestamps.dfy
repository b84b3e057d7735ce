/**
 * Timestamps as the Ruby code compares them: strings under String#<=>,
 * which orders byte by byte. For UTF-8 text that is the order of code
 * points, so comparing `char`s position by position gives the same order.
 */
module Timestamps {

  type Timestamp = string

  /** `a < b` on Ruby strings: lexicographic, a proper prefix is smaller. */
  predicate Less(a: string, b: string)
    decreases |a|
  {
    if a == [] then b != []
    else b != [] && (a[0] < b[0] || (a[0] == b[0] && Less(a[1..], b[1..])))
  }

  lemma {:induction false} LessIrreflexive(a: string)
    ensures !Less(a, a)
    decreases |a|
  {
    if a != [] {
      LessIrreflexive(a[1..]);
    }
  }

  lemma {:induction false} LessTransitive(a: string, b: string, c: string)
    requires Less(a, b) && Less(b, c)
    ensures Less(a, c)
    decreases |a|
  {
    if a != [] {
      assert b != [] && c != [];
      if a[0] == b[0] && b[0] == c[0] {
        LessTransitive(a[1..], b[1..], c[1..]);
      }
    }
  }

  lemma {:induction false} LessTotal(a: string, b: string)
    ensures Less(a, b) || a == b || Less(b, a)
    decreases |a|
  {
    if a != [] && b != [] && a[0] == b[0] {
      LessTotal(a[1..], b[1..]);
      if a[1..] == b[1..] {
        assert a == [a[0]] + a[1..] && b == [b[0]] + b[1..];
      }
    }
  }

  lemma LessAsymmetric(a: string, b: string)
    requires Less(a, b)
    ensures !Less(b, a)
  {
    if Less(b, a) {
      LessTransitive(a, b, a);
      LessIrreflexive(a);
    }
  }

  /** Not-less is "at least": `!(a < b)` means `b <= a`, which is `b < a` or equality. */
  lemma NotLessIsAtLeast(a: string, b: string)
    ensures !Less(a, b) <==> (Less(b, a) || a == b)
  {
    LessTotal(a, b);
    if Less(a, b) {
      LessAsymmetric(a, b);
      LessIrreflexive(a);
    }
  }
}
