/**
 * The mod-10 check digit of EAN-13, EAN-8 and UPC-A (GS1 General
 * Specifications, section 7.9), in two independent forms:
 *  - the form the validators compute: weights chosen by the parity of the
 *    index counted from the LEFT, summed over the data digits only, then
 *    turned into the digit that completes the sum;
 *  - the form of the standard: weights 1, 3, 1, 3, ... counted from the
 *    RIGHT, the check digit included, and the whole sum a multiple of ten.
 */
module Checksum {
  import opened Text

  /** The weight the validators' loops give to index `i`. */
  function IndexWeight(i: nat, evenWeight: nat, oddWeight: nat): nat {
    if i % 2 == 0 then evenWeight else oddWeight
  }

  /** The sum of `DigitValue(code[i]) * IndexWeight(i)` over `i < count`. */
  function WeightedSum(code: string, count: nat, evenWeight: nat, oddWeight: nat): (sum: int)
    requires count <= |code|
    ensures (forall i | 0 <= i < count :: IsDigit(code[i])) ==> sum >= 0
    decreases count
  {
    if count == 0 then 0
    else
      WeightedSum(code, count - 1, evenWeight, oddWeight)
      + DigitValue(code[count - 1]) * IndexWeight(count - 1, evenWeight, oddWeight)
  }

  /**
   * `(10 - (sum % 10)) % 10`: the one digit that brings `sum` to a multiple
   * of ten. JavaScript's `%` truncates while Dafny's is Euclidean; the two
   * agree because the sum is never negative.
   */
  function CheckDigit(sum: int): (check: int)
    requires sum >= 0
    ensures 0 <= check <= 9
    ensures (sum + check) % 10 == 0
  {
    (10 - sum % 10) % 10
  }

  /** The digit that completes a sum to a multiple of ten is unique. */
  lemma CheckDigitIsUnique(sum: int, d: int)
    requires sum >= 0 && 0 <= d <= 9
    ensures CheckDigit(sum) == d <==> (sum + d) % 10 == 0
  {
  }

  /**
   * The loop shared by the three validators: accumulate the weighted sum of
   * the first `count` digits, then derive the check digit from it.
   */
  method ComputeCheckDigit(code: string, count: nat, evenWeight: nat, oddWeight: nat) returns (check: int)
    requires count <= |code|
    requires forall i | 0 <= i < count :: IsDigit(code[i])
    ensures 0 <= check <= 9
    ensures (WeightedSum(code, count, evenWeight, oddWeight) + check) % 10 == 0
    ensures check == CheckDigit(WeightedSum(code, count, evenWeight, oddWeight))
  {
    var sum := 0;
    for i := 0 to count
      invariant sum == WeightedSum(code, i, evenWeight, oddWeight)
      invariant sum >= 0
    {
      sum := sum + DigitValue(code[i]) * (if i % 2 == 0 then evenWeight else oddWeight);
    }
    check := (10 - sum % 10) % 10;
  }

  /** The weight of a digit standing `k` places left of the rightmost one. */
  function Gs1Weight(k: nat): nat {
    if k % 2 == 0 then 1 else 3
  }

  /** The standard's weighted sum: 1 for the rightmost digit, 3 for the next, and so on. */
  function Gs1Sum(code: string): int
    decreases |code|
  {
    if |code| == 0 then 0
    else if |code| == 1 then DigitValue(code[0])
    else Gs1Sum(code[..|code| - 2]) + 3 * DigitValue(code[|code| - 2]) + DigitValue(code[|code| - 1])
  }

  /** A code whose last digit is a correct check digit under the standard's rule. */
  predicate Gs1CheckHolds(code: string) {
    Gs1Sum(code) % 10 == 0
  }

  /**
   * Left-indexed and right-indexed weighting agree: over an odd number of
   * digits the left weights are 1/3 (even/odd index), over an even number
   * they are 3/1.
   */
  lemma {:induction false} WeightedSumIsGs1Sum(code: string, count: nat)
    requires count <= |code|
    ensures Gs1Sum(code[..count]) ==
              if count % 2 == 1 then WeightedSum(code, count, 1, 3) else WeightedSum(code, count, 3, 1)
    decreases count
  {
    if count >= 2 {
      WeightedSumIsGs1Sum(code, count - 2);
      assert code[..count][..count - 2] == code[..count - 2];
    }
  }

  /**
   * The validators' test "the last digit equals the check digit of the
   * weighted data digits" is the standard's test on the whole code.
   */
  lemma LastDigitCheckIsGs1Check(code: string, evenWeight: nat, oddWeight: nat)
    requires |code| >= 1 && IsDigits(code)
    requires evenWeight == Gs1Weight(|code| - 1) && oddWeight == Gs1Weight(|code|)
    ensures DigitValue(code[|code| - 1]) == CheckDigit(WeightedSum(code, |code| - 1, evenWeight, oddWeight))
            <==> Gs1CheckHolds(code)
  {
    var n := |code|;
    var d := DigitValue(code[n - 1]);
    assert forall i | 0 <= i < n - 1 :: IsDigit(code[i]);
    var sum := WeightedSum(code, n - 1, evenWeight, oddWeight);
    Gs1SumSplitsAtLast(code, evenWeight, oddWeight);
    assert 0 <= d <= 9 by {
      assert IsDigit(code[n - 1]);
    }
    CheckDigitIsUnique(sum, d);
  }

  /** The standard's sum is the validators' sum of the data digits plus the last digit. */
  lemma Gs1SumSplitsAtLast(code: string, evenWeight: nat, oddWeight: nat)
    requires |code| >= 1
    requires evenWeight == Gs1Weight(|code| - 1) && oddWeight == Gs1Weight(|code|)
    ensures Gs1Sum(code) == WeightedSum(code, |code| - 1, evenWeight, oddWeight) + DigitValue(code[|code| - 1])
  {
    var n := |code|;
    assert code[..n] == code;
    WeightedSumIsGs1Sum(code, n);
    if n % 2 == 1 {
      assert evenWeight == 1 && oddWeight == 3;
    } else {
      assert evenWeight == 3 && oddWeight == 1;
    }
  }

  /** Replacing the digit at `i` moves the standard's sum by that position's weight times the difference. */
  lemma {:induction false} Gs1SumUpdate(code: string, i: nat, c: char)
    requires i < |code|
    ensures Gs1Sum(code[i := c]) == Gs1Sum(code) + Gs1Weight(|code| - 1 - i) * (DigitValue(c) - DigitValue(code[i]))
    decreases |code|
  {
    var n := |code|;
    var u := code[i := c];
    if n >= 2 {
      if i < n - 2 {
        Gs1SumUpdate(code[..n - 2], i, c);
        assert u[..n - 2] == code[..n - 2][i := c];
      } else {
        assert u[..n - 2] == code[..n - 2];
      }
    }
  }

  /**
   * The check digit catches every single-digit error: changing one digit of
   * a code that passes the check makes it fail, because 1 and 3 are both
   * prime to 10.
   */
  lemma SingleDigitErrorDetected(code: string, i: nat, c: char)
    requires IsDigits(code) && i < |code|
    requires IsDigit(c) && c != code[i]
    requires Gs1CheckHolds(code)
    ensures !Gs1CheckHolds(code[i := c])
  {
    Gs1SumUpdate(code, i, c);
    var delta := DigitValue(c) - DigitValue(code[i]);
    assert IsDigit(code[i]);
    assert -9 <= delta <= 9 && delta != 0;
    if Gs1Weight(|code| - 1 - i) == 1 {
      assert Gs1Sum(code[i := c]) == Gs1Sum(code) + delta;
    } else {
      assert Gs1Sum(code[i := c]) == Gs1Sum(code) + 3 * delta;
      assert (3 * delta) % 10 != 0;
    }
  }
}
