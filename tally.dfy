/**
 * The mala arithmetic of the chanting page: a count within the current mala of
 * `MalaCount` repetitions, the number of malas completed, and their total.
 */
module Tally {

  /** `MALA_COUNT`: repetitions in one mala. */
  const MalaCount: nat := 108

  /** The page's `count` and `malas` state. */
  datatype TallyState = TallyState(count: nat, malas: nat)

  /** `totalJapa`: all repetitions, completed malas included. */
  function TotalJapa(t: TallyState): nat {
    t.malas * MalaCount + t.count
  }

  predicate InRange(t: TallyState) {
    t.count < MalaCount
  }

  /**
   * One repetition, as the `setCount` updater of `handleIncrement` computes it: the count
   * goes up by one, and on reaching `MalaCount` (or more) it restarts at 0 and a mala is added.
   */
  function Increment(t: TallyState): (r: TallyState)
    ensures InRange(r)
    ensures InRange(t) ==> TotalJapa(r) == TotalJapa(t) + 1
    ensures t.malas <= r.malas <= t.malas + 1
    ensures r.malas == t.malas + 1 <==> r.count == 0
  {
    var newCount := t.count + 1;
    if newCount >= MalaCount then TallyState(0, t.malas + 1) else TallyState(newCount, t.malas)
  }

  /** The tally after `n` repetitions. */
  function IncrementTimes(t: TallyState, n: nat): TallyState {
    if n == 0 then t else Increment(IncrementTimes(t, n - 1))
  }

  /** The in-range tally whose total is `n`. */
  function FromTotal(n: nat): (t: TallyState)
    ensures InRange(t)
  {
    TallyState(n % MalaCount, n / MalaCount)
  }

  /** `FromTotal` and `TotalJapa` are inverse on in-range tallies, both ways round. */
  lemma TotalRoundTrip(n: nat, t: TallyState)
    ensures TotalJapa(FromTotal(n)) == n
    ensures InRange(t) ==> FromTotal(TotalJapa(t)) == t
  {
    var f := FromTotal(n);
    assert n == f.malas * MalaCount + f.count;
    if InRange(t) {
      var m := TotalJapa(t);
      assert m == t.malas * MalaCount + t.count;
      assert m / MalaCount == t.malas && m % MalaCount == t.count by {
        LongDivision(m, t.malas, t.count);
      }
    }
  }

  lemma LongDivision(m: nat, q: nat, r: nat)
    requires r < MalaCount && m == q * MalaCount + r
    ensures m / MalaCount == q && m % MalaCount == r
  {
  }

  /** An increment of the tally with total `n` is the tally with total `n + 1`. */
  lemma IncrementFromTotal(n: nat)
    ensures Increment(FromTotal(n)) == FromTotal(n + 1)
  {
    var q, r := n / MalaCount, n % MalaCount;
    assert n == q * MalaCount + r;
    if r + 1 < MalaCount {
      LongDivision(n + 1, q, r + 1);
    } else {
      LongDivision(n + 1, q + 1, 0);
    }
  }

  /** `n` repetitions from an in-range tally add exactly `n` to the total. */
  lemma {:induction false} IncrementTimesAdds(t: TallyState, n: nat)
    requires InRange(t)
    ensures IncrementTimes(t, n) == FromTotal(TotalJapa(t) + n)
  {
    if n == 0 {
      TotalRoundTrip(0, t);
    } else {
      IncrementTimesAdds(t, n - 1);
      IncrementFromTotal(TotalJapa(t) + n - 1);
    }
  }

  /** From a fresh tally, `n` repetitions give count `n mod 108` and `n div 108` malas. */
  lemma IncrementsFromZero(n: nat)
    ensures IncrementTimes(TallyState(0, 0), n) == TallyState(n % MalaCount, n / MalaCount)
  {
    IncrementTimesAdds(TallyState(0, 0), n);
  }
}
