/** The counter card: the zero-padded count and the total-count line. */
module TallyCounter {
  import opened Decimal
  import opened Tally

  /** `String(count).padStart(3, "0")`. */
  function CountDisplay(count: nat): (s: string)
    ensures |s| == if |ToDecimal(count)| >= 3 then |ToDecimal(count)| else 3
    ensures AllDigits(s) && Value(s) == count
    ensures s[|s| - |ToDecimal(count)|..] == ToDecimal(count)
  {
    var d := ToDecimal(count);
    ValueOfDecimal(count);
    if |d| < 3 then
      ValueIgnoresLeadingZeros(3 - |d|, d);
      PadStart(d, 3, '0')
    else PadStart(d, 3, '0')
  }

  /** Counts below 1000 always show exactly three digits. */
  lemma CountDisplayWidth(count: nat)
    requires count < 1000
    ensures |CountDisplay(count)| == 3
  {
    assert Pow10(3) == 1000;
    DecimalLength(count, 3);
  }

  /** Dropping the padding gives the plain numeral back. */
  lemma CountDisplayStrips(count: nat)
    ensures StripLeadingZeros(CountDisplay(count)) == ToDecimal(count)
  {
    var d := ToDecimal(count);
    if |d| < 3 {
      StripPaddedDecimal(3 - |d|, count);
    } else {
      StripPaddedDecimal(0, count);
      assert Repeat('0', 0) + d == d;
    }
  }

  lemma ZeroDisplay()
    ensures CountDisplay(0) == "000"
  {
    assert ToDecimal(0) == "0";
  }

  /** The card's `108*malas + count`: the same number as the page's total japa. */
  function TotalDisplay(count: nat, malas: nat): (n: nat)
    ensures n == TotalJapa(TallyState(count, malas))
  {
    108 * malas + count
  }

  /** After `n` increments from zero the card shows `n` as the total. */
  lemma TotalDisplayCounts(n: nat)
    ensures var t := IncrementTimes(TallyState(0, 0), n); TotalDisplay(t.count, t.malas) == n
  {
    IncrementsFromZero(n);
    TotalRoundTrip(n, TallyState(0, 0));
  }
}
