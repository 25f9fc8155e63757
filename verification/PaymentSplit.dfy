/**
 * Recording one captured amount in the eZee folio: one AddPayment call per sub-reservation, the
 * amount split into whole rupees with the remainder on the last one. Amounts are in paise.
 */
module PaymentSplit {

  const RUPEE := 100

  datatype Attempt = Attempt(target: string, amount: int, accepted: bool)

  function PaymentTargets(subReservations: seq<string>, reservationNo: string): (targets: seq<string>)
    ensures |targets| >= 1
  {
    if |subReservations| > 0 then subReservations else [reservationNo]
  }

  /** `Math.floor(amount / n)` in rupees. */
  function WholeRupees(amount: int, n: nat): int
    requires n > 0
  {
    amount / (RUPEE * n)
  }

  ghost function Total(attempts: seq<Attempt>): int
  {
    if attempts == [] then 0 else Total(attempts[..|attempts| - 1]) + attempts[|attempts| - 1].amount
  }

  /** The amount of the i-th of `n` calls. */
  function Part(amount: int, n: nat, i: nat): int
    requires i < n
  {
    var perBed := RUPEE * WholeRupees(amount, n);
    if i == n - 1 then amount - perBed * i else perBed
  }

  /**
   * `accepts(i)` says whether eZee accepts the i-th call. A refused call does not stop the later
   * ones. The parts add up to the amount; all but the last are the same whole number of rupees; the
   * last exceeds them by less than one rupee per target.
   */
  method AddPayments(amount: int, subReservations: seq<string>, reservationNo: string, accepts: nat -> bool)
    returns (attempts: seq<Attempt>)
    ensures |attempts| == if subReservations == [] then 1 else |subReservations|
    ensures forall i | 0 <= i < |attempts| ::
              && attempts[i].target == (if subReservations == [] then reservationNo else subReservations[i])
              && attempts[i].accepted == accepts(i)
    ensures Total(attempts) == amount
    ensures exists rupees :: EvenSplit(attempts, rupees)
  {
    hide Part, Total, EvenSplit;
    var targets := PaymentTargets(subReservations, reservationNo);
    var n := |targets|;
    attempts := [];
    for i := 0 to n
      invariant |attempts| == i
      invariant forall j | 0 <= j < i ::
          attempts[j].target == targets[j] && attempts[j].accepted == accepts(j)
          && attempts[j].amount == Part(amount, n, j)
    {
      attempts := attempts + [Attempt(targets[i], Part(amount, n, i), accepts(i))];
    }
    PartsAddUp(attempts, amount, n);
    PartsAreEven(attempts, amount);
  }

  /** Equal whole rupees except for the last part, which carries the remainder. */
  ghost predicate EvenSplit(attempts: seq<Attempt>, rupees: int)
    requires attempts != []
  {
    && (forall i | 0 <= i < |attempts| - 1 :: attempts[i].amount == RUPEE * rupees)
    && 0 <= attempts[|attempts| - 1].amount - RUPEE * rupees < RUPEE * |attempts|
  }

  lemma {:induction false} PartsAddUp(attempts: seq<Attempt>, amount: int, n: nat)
    requires 0 < |attempts| <= n
    requires forall j | 0 <= j < |attempts| :: attempts[j].amount == Part(amount, n, j)
    ensures Total(attempts) ==
            if |attempts| < n then RUPEE * WholeRupees(amount, n) * |attempts| else amount
  {
    var rest := attempts[..|attempts| - 1];
    if rest == [] {
      assert Total(rest) == 0;
    } else {
      PartsAddUp(rest, amount, n);
      var perBed, k := RUPEE * WholeRupees(amount, n), |attempts|;
      assert perBed * k == perBed * (k - 1) + perBed;
    }
  }

  lemma PartsAreEven(attempts: seq<Attempt>, amount: int)
    requires attempts != []
    requires forall j | 0 <= j < |attempts| :: attempts[j].amount == Part(amount, |attempts|, j)
    ensures EvenSplit(attempts, WholeRupees(amount, |attempts|))
  {
    RemainderBound(amount, |attempts|);
  }

  lemma RemainderBound(amount: int, n: nat)
    requires n > 0
    ensures var perBed := RUPEE * WholeRupees(amount, n);
            0 <= amount - perBed * (n - 1) - perBed < RUPEE * n
  {
    var d := RUPEE * n;
    assert amount == d * (amount / d) + amount % d;
  }
}
