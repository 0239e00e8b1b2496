/** The order of strings, character by character. */
module Texts {
  import opened Sorting

  function CompareNumbers(a: int, b: int): int {
    if a < b then -1 else if a > b then 1 else 0
  }

  /** A prefix comes first. */
  function CompareTexts(a: string, b: string): int {
    if a == [] || b == [] then CompareNumbers(|a|, |b|)
    else if a[0] != b[0] then CompareNumbers(a[0] as int, b[0] as int)
    else CompareTexts(a[1..], b[1..])
  }

  lemma {:induction false} TextsAreOrdered(a: string, b: string, c: string)
    ensures CompareTexts(b, a) == -CompareTexts(a, b)
    ensures CompareTexts(a, b) == 0 <==> a == b
    ensures CompareTexts(a, b) <= 0 && CompareTexts(b, c) <= 0 ==> CompareTexts(a, c) <= 0
    decreases |a|
  {
    if a != [] && b != [] {
      if a[0] == b[0] {
        TextsAreOrdered(a[1..], b[1..], if c == [] then [] else c[1..]);
        assert a == [a[0]] + a[1..] && b == [b[0]] + b[1..];
      }
    }
  }

  /** The texts agree up to i, where the first one ends before the other or has a smaller character. */
  predicate PrecedesAt(a: string, b: string, i: nat) {
    && i <= |a| && i < |b| && (forall k :: 0 <= k < i ==> a[k] == b[k])
    && (i < |a| ==> a[i] < b[i])
  }

  /** The first difference decides; a proper prefix comes first. */
  ghost predicate TextPrecedes(a: string, b: string) {
    exists i: nat :: PrecedesAt(a, b, i)
  }

  lemma PrecedesAtShifts(a: string, b: string, i: nat)
    requires a != [] && b != [] && a[0] == b[0]
    ensures PrecedesAt(a, b, i + 1) <==> PrecedesAt(a[1..], b[1..], i)
    ensures !PrecedesAt(a, b, 0)
  {
    if PrecedesAt(a[1..], b[1..], i) {
      forall k | 0 <= k < i + 1
        ensures a[k] == b[k]
      {
        assert k > 0 ==> a[1..][k - 1] == b[1..][k - 1];
      }
    }
  }

  lemma {:induction false} CompareTextsIsLexicographic(a: string, b: string)
    ensures CompareTexts(a, b) < 0 <==> TextPrecedes(a, b)
    decreases |a|
  {
    if a == [] || b == [] || a[0] != b[0] {
      assert CompareTexts(a, b) < 0 <==> PrecedesAt(a, b, 0);
    } else {
      CompareTextsIsLexicographic(a[1..], b[1..]);
      if i: nat :| PrecedesAt(a[1..], b[1..], i) {
        PrecedesAtShifts(a, b, i);
      }
      if i: nat :| PrecedesAt(a, b, i) {
        PrecedesAtShifts(a, b, if i > 0 then i - 1 else 0);
      }
    }
  }

  predicate TextLeq(a: string, b: string) {
    CompareTexts(a, b) <= 0
  }

  lemma TextLeqIsTotalOrder()
    ensures TotalOrder(TextLeq)
  {
    forall a, b, c
      ensures TextLeq(a, b) || TextLeq(b, a)
      ensures TextLeq(a, b) && TextLeq(b, c) ==> TextLeq(a, c)
      ensures TextLeq(a, b) && TextLeq(b, a) ==> a == b
    {
      TextsAreOrdered(a, b, c);
    }
  }
}
