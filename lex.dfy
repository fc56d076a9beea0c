/**
 The ordering `std::string` uses for `<` and `>=`: lexicographic by character
 code, a proper prefix being smaller. Dafny's own `<` on sequences is the
 proper-prefix relation, so the order is defined here explicitly; the order
 filter compares ISO dates such as "1994-01-01" with it.
 */
module LexOrder {

  /** `a < b` for strings. */
  predicate LexLess(a: string, b: string)
    decreases |a|
  {
    if |b| == 0 then false
    else if |a| == 0 then true
    else if a[0] != b[0] then a[0] < b[0]
    else LexLess(a[1..], b[1..])
  }

  /** `a >= b` for strings, written as the source's operator is: not `a < b`. */
  predicate LexAtLeast(a: string, b: string)
  {
    !LexLess(a, b)
  }

  lemma {:induction false} LexLessIrreflexive(a: string)
    ensures !LexLess(a, a)
  {
    if |a| > 0 {
      LexLessIrreflexive(a[1..]);
    }
  }

  lemma {:induction false} LexLessAsymmetric(a: string, b: string)
    ensures LexLess(a, b) ==> !LexLess(b, a)
  {
    if |a| > 0 && |b| > 0 && a[0] == b[0] {
      LexLessAsymmetric(a[1..], b[1..]);
    }
  }

  lemma {:induction false} LexLessTransitive(a: string, b: string, c: string)
    requires LexLess(a, b) && LexLess(b, c)
    ensures LexLess(a, c)
  {
    if |a| > 0 && a[0] == b[0] && b[0] == c[0] {
      LexLessTransitive(a[1..], b[1..], c[1..]);
    }
  }

  /** Any two strings are equal or ordered one way or the other. */
  lemma {:induction false} LexLessTotal(a: string, b: string)
    ensures a == b || LexLess(a, b) || LexLess(b, a)
  {
    if |a| > 0 && |b| > 0 && a[0] == b[0] {
      LexLessTotal(a[1..], b[1..]);
      if a[1..] == b[1..] {
        assert a == [a[0]] + a[1..] && b == [b[0]] + b[1..];
      }
    }
  }

  /** `d >= s` in the source's sense is "equal, or strictly after". */
  lemma LexAtLeastIff(d: string, s: string)
    ensures LexAtLeast(d, s) <==> d == s || LexLess(s, d)
  {
    LexLessTotal(d, s);
    LexLessAsymmetric(s, d);
    LexLessIrreflexive(d);
  }

  /** A proper prefix (Dafny's `<` on sequences) is lexicographically smaller. */
  lemma {:induction false} PrefixIsLexLess(a: string, b: string)
    requires a < b
    ensures LexLess(a, b)
  {
    if |a| > 0 {
      assert a[1..] < b[1..];
      PrefixIsLexLess(a[1..], b[1..]);
    }
  }
}
