/**
 * The integer part of the odometer counter: the digit string it shows and the
 * target each digit column rolls to (the shortest way round the 0..9 ring).
 */
module AnimatedCounter {
  import opened Wrappers
  import opened Numerals

  function Abs(x: int): nat {
    if x < 0 then -x else x
  }

  /** `abs(target).toString().padStart(minDigits, '0')`. */
  function DigitString(target: int, minDigits: int): string
    requires minDigits >= 0
  {
    PadStart(Decimal(Abs(target)), minDigits, '0')
  }

  /** The digit string is all digits, at least `minDigits` long, and reads back as `|target|`. */
  lemma DigitStringValue(target: int, minDigits: int)
    requires minDigits >= 0
    ensures var r := DigitString(target, minDigits);
      AllDigits(r) && |r| >= minDigits && |r| >= 1 && DigitsValue(r) == Abs(target)
    ensures |Decimal(Abs(target))| >= minDigits ==> DigitString(target, minDigits) == Decimal(Abs(target))
  {
    DecimalRoundTrip(Abs(target));
    ZeroPadValue(Decimal(Abs(target)), minDigits);
  }

  /** The direction of the whole counter: up unless the new value is below the old one. */
  predicate IsIncrementing(target: int, previousValue: int) {
    target >= previousValue
  }

  /** `k.mod(10)`: Kotlin's floor-mod, which for divisor 10 is Dafny's `%`. */
  function RingDigit(k: int): (d: int)
    ensures 0 <= d <= 9
  {
    k % 10
  }

  function ForwardDiff(lastDigit: int, digit: int): int {
    (digit - lastDigit + 10) % 10
  }

  function BackwardDiff(lastDigit: int, digit: int): int {
    (lastDigit - digit + 10) % 10
  }

  /**
   * The position a digit column animates to when it must show `digit`, having
   * last been sent to `lastTarget`; `None` when it already shows `digit`.
   */
  function NewTarget(lastTarget: int, digit: int, isIncrementing: bool): Option<int>
    requires 0 <= digit <= 9
  {
    var lastDigit := RingDigit(lastTarget);
    if lastDigit == digit then None
    else
      var forwardDiff := ForwardDiff(lastDigit, digit);
      var backwardDiff := BackwardDiff(lastDigit, digit);
      if forwardDiff < backwardDiff then Some(lastTarget + forwardDiff)
      else if forwardDiff > backwardDiff then Some(lastTarget - backwardDiff)
      else if isIncrementing then Some(lastTarget + forwardDiff)
      else Some(lastTarget - backwardDiff)
  }

  /** Two distinct digits are 1..9 apart going up and the complement going down. */
  lemma DiffsComplement(lastDigit: int, digit: int)
    requires 0 <= lastDigit <= 9 && 0 <= digit <= 9 && lastDigit != digit
    ensures 1 <= ForwardDiff(lastDigit, digit) <= 9 && 1 <= BackwardDiff(lastDigit, digit) <= 9
    ensures ForwardDiff(lastDigit, digit) + BackwardDiff(lastDigit, digit) == 10
    ensures RingDigit(lastDigit + ForwardDiff(lastDigit, digit)) == digit
    ensures RingDigit(lastDigit - BackwardDiff(lastDigit, digit)) == digit
  {
  }

  /**
   * A column moves only when its digit changes; then it lands on `digit`,
   * at distance min(forwardDiff, backwardDiff) <= 5, and on a tie it goes up
   * exactly when the counter is incrementing.
   */
  lemma NewTargetLands(lastTarget: int, digit: int, isIncrementing: bool)
    requires 0 <= digit <= 9
    ensures NewTarget(lastTarget, digit, isIncrementing).None? <==> RingDigit(lastTarget) == digit
    ensures NewTarget(lastTarget, digit, isIncrementing).Some? ==>
      var t := NewTarget(lastTarget, digit, isIncrementing).value;
      var f := ForwardDiff(RingDigit(lastTarget), digit);
      var b := BackwardDiff(RingDigit(lastTarget), digit);
      && RingDigit(t) == digit
      && Abs(t - lastTarget) == (if f <= b then f else b)
      && 1 <= Abs(t - lastTarget) <= 5
      && (f == b ==> (t > lastTarget <==> isIncrementing))
  {
    var lastDigit := RingDigit(lastTarget);
    if lastDigit != digit {
      var f := ForwardDiff(lastDigit, digit);
      var b := BackwardDiff(lastDigit, digit);
      DiffsComplement(lastDigit, digit);
      var q := lastTarget / 10;
      assert lastTarget == lastDigit + 10 * q;
      var t := NewTarget(lastTarget, digit, isIncrementing).value;
      if t == lastTarget + f {
        RingShift(lastDigit + f, q);
      } else {
        assert t == lastTarget - b;
        RingShift(lastDigit - b, q);
      }
    }
  }

  /** Whole turns of the ring do not change the digit shown. */
  lemma RingShift(x: int, q: int)
    ensures RingDigit(x + 10 * q) == RingDigit(x)
  {
  }

  /** No position showing `digit` is nearer to `lastTarget` than the chosen target. */
  lemma NewTargetShortest(lastTarget: int, digit: int, isIncrementing: bool, k: int)
    requires 0 <= digit <= 9 && RingDigit(k) == digit
    requires NewTarget(lastTarget, digit, isIncrementing).Some?
    ensures Abs(NewTarget(lastTarget, digit, isIncrementing).value - lastTarget) <= Abs(k - lastTarget)
  {
    var lastDigit := RingDigit(lastTarget);
    var f := ForwardDiff(lastDigit, digit);
    var b := BackwardDiff(lastDigit, digit);
    NewTargetLands(lastTarget, digit, isIncrementing);
    DiffsComplement(lastDigit, digit);
    // k is lastTarget + f shifted by a whole number of turns of the ring
    var j := (k - lastTarget - f) / 10;
    assert lastTarget == lastDigit + 10 * (lastTarget / 10);
    assert k == digit + 10 * (k / 10);
    assert k - lastTarget - f == 10 * j;
    if j >= 0 {
      assert k - lastTarget >= f;
    } else {
      assert k - lastTarget <= f - 10;
      assert f - 10 == -b;
    }
  }

  /** Stepping one position along the ring steps the digit shown by one, 9 wrapping to 0. */
  lemma RingNext(x: int)
    ensures RingDigit(RingDigit(x) + 1) == RingDigit(x + 1)
  {
    var q := x / 10;
    assert x == RingDigit(x) + 10 * q;
    RingShift(RingDigit(x) + 1, q);
  }

  /** The four positions drawn around `intPosition`, each shown as its ring digit. */
  function VisibleDigits(intPosition: int): (ds: seq<int>)
    ensures |ds| == 4
    ensures forall j :: 0 <= j < 4 ==> 0 <= ds[j] <= 9
    ensures ds[1] == RingDigit(intPosition)
    ensures forall j :: 0 <= j < 3 ==> ds[j + 1] == RingDigit(ds[j] + 1)
  {
    RingNext(intPosition - 1);
    RingNext(intPosition);
    RingNext(intPosition + 1);
    [RingDigit(intPosition - 1), RingDigit(intPosition), RingDigit(intPosition + 1), RingDigit(intPosition + 2)]
  }
}
