/**
 * The billable band of one price tier: how many units of a usage amount fall
 * inside the tier (begin, end], as computed by getBillableBand and
 * getBillableBandCsv in awspricecalculator/common/phelper.py.
 */
module BillableBand {
  import opened Wrappers

  /** The upper bound of a tier: the price list's INFINITY sentinel or a whole number. */
  datatype EndRange = Infinity | Finite(n: int)

  /** One tier of a price dimension (the beginRange, endRange and pricePerUnit.USD entries). */
  datatype PriceDimension = PriceDimension(beginRange: int, endRange: EndRange, pricePerUnit: real)

  /** The EndingRange cell of a CSV price row: empty, or holding a bound (possibly the INFINITY text). */
  datatype EndCell = Blank | Given(bound: EndRange)

  /** One row of a CSV price list, as returned by the store; an empty StartingRange is None. */
  datatype CsvRow = CsvRow(startingRange: Option<int>, endingRange: EndCell, pricePerUnit: real,
                           priceDescription: string, rateCode: string)

  /** The triple getBillableBandCsv returns: billable units, unit price and charge. */
  datatype Scored = Scored(billableBand: int, pricePerUnit: real, amount: real)

  /** A tier whose finite end is not below its begin. Neither getBillableBand nor getBillableBandCsv checks this. */
  predicate WellFormed(pd: PriceDimension) {
    pd.endRange.Finite? ==> pd.beginRange <= pd.endRange.n
  }

  /** Unit number k lies below the tier's end (every unit does for an unbounded tier). */
  predicate BelowEnd(pd: PriceDimension, k: int) {
    pd.endRange.Finite? ==> k <= pd.endRange.n
  }

  /** The integers k with begin < k <= usage that also lie at or below the tier's end, if it has one. */
  ghost function UnitsInTier(pd: PriceDimension, usage: int): set<int> {
    set k: int | pd.beginRange < k <= usage && BelowEnd(pd, k)
  }

  /** getBillableBand: the part of the usage that falls inside the tier. */
  function BillableBand(pd: PriceDimension, usage: int): (b: int)
    ensures WellFormed(pd) && usage <= pd.beginRange ==> b == 0
    ensures WellFormed(pd) ==> 0 <= b
    ensures pd.endRange.Finite? && WellFormed(pd) ==> b <= pd.endRange.n - pd.beginRange
    ensures pd.beginRange < usage && (pd.endRange.Infinity? || usage <= pd.endRange.n) ==> b == usage - pd.beginRange
    ensures pd.endRange.Finite? && pd.endRange.n < usage ==> b == pd.endRange.n - pd.beginRange
  {
    match pd.endRange
    case Infinity =>
      if pd.beginRange < usage then usage - pd.beginRange else 0
    case Finite(end) =>
      if end < usage then end - pd.beginRange
      else if pd.beginRange < usage then usage - pd.beginRange
      else 0
  }

  /** The tier a CSV row describes: an empty StartingRange reads as 0, an empty EndingRange as INFINITY. */
  function TierOf(row: CsvRow): PriceDimension {
    var begin := match row.startingRange case None => 0 case Some(b) => b;
    var end := match row.endingRange case Blank => Infinity case Given(e) => e;
    PriceDimension(begin, end, row.pricePerUnit)
  }

  /** getBillableBandCsv: the band of the row's tier, its unit price, and the charge for the band. */
  function BillableBandCsv(row: CsvRow, usage: int): (s: Scored)
    ensures s.billableBand == BillableBand(TierOf(row), usage)
    ensures s.pricePerUnit == row.pricePerUnit
    ensures s.billableBand > 0 ==> s.amount == row.pricePerUnit * s.billableBand as real
    ensures s.billableBand <= 0 ==> s.amount == 0.0
    ensures WellFormed(TierOf(row)) ==> s.amount == row.pricePerUnit * s.billableBand as real
    ensures 0.0 <= row.pricePerUnit ==> 0.0 <= s.amount
  {
    var band := BillableBand(TierOf(row), usage);
    var amt := if band > 0 then row.pricePerUnit * band as real else 0.0;
    Scored(band, row.pricePerUnit, amt)
  }

  /** The integers k with lo < k <= hi. */
  ghost function Interval(lo: int, hi: int): set<int>
    decreases if lo < hi then hi - lo else 0
  {
    if lo < hi then Interval(lo, hi - 1) + {hi} else {}
  }

  lemma {:induction false} IntervalFacts(lo: int, hi: int)
    ensures forall k :: k in Interval(lo, hi) <==> lo < k <= hi
    ensures |Interval(lo, hi)| == if lo < hi then hi - lo else 0
    decreases if lo < hi then hi - lo else 0
  {
    if lo < hi {
      IntervalFacts(lo, hi - 1);
    }
  }

  /** On a well-formed tier the band counts exactly the usage units lying inside the tier. */
  lemma BandCountsUnitsInTier(pd: PriceDimension, usage: int)
    requires WellFormed(pd)
    ensures BillableBand(pd, usage) == |UnitsInTier(pd, usage)|
  {
    var top := match pd.endRange case Infinity => usage case Finite(end) => if end < usage then end else usage;
    IntervalFacts(pd.beginRange, top);
    assert UnitsInTier(pd, usage) == Interval(pd.beginRange, top);
  }

  /** On a well-formed tier the band never decreases as usage grows. */
  lemma BandMonotone(pd: PriceDimension, u1: int, u2: int)
    requires WellFormed(pd) && u1 <= u2
    ensures BillableBand(pd, u1) <= BillableBand(pd, u2)
  {
  }

  /**
   * A price schedule of consecutive tiers starting at `begin`: each tier
   * ends where the next begins and the last one is unbounded.
   */
  predicate ChainFrom(begin: int, tiers: seq<PriceDimension>)
    decreases |tiers|
  {
    |tiers| > 0 && tiers[0].beginRange == begin &&
    if |tiers| == 1 then tiers[0].endRange == Infinity
    else tiers[0].endRange.Finite? && begin <= tiers[0].endRange.n &&
         ChainFrom(tiers[0].endRange.n, tiers[1..])
  }

  /** The bands of all tiers of a schedule, added up. */
  function SumBands(tiers: seq<PriceDimension>, usage: int): int
    decreases |tiers|
  {
    if tiers == [] then 0 else SumBands(tiers[..|tiers| - 1], usage) + BillableBand(tiers[|tiers| - 1], usage)
  }

  lemma {:induction false} SumBandsPrepend(t: PriceDimension, tiers: seq<PriceDimension>, usage: int)
    ensures SumBands([t] + tiers, usage) == BillableBand(t, usage) + SumBands(tiers, usage)
    decreases |tiers|
  {
    if tiers != [] {
      var init := tiers[..|tiers| - 1];
      assert ([t] + tiers)[..|tiers|] == [t] + init;
      SumBandsPrepend(t, init, usage);
    }
  }

  /**
   * Scoring every tier of a consecutive schedule once splits the usage above
   * the schedule's start across the tiers without gap or overlap.
   */
  lemma {:induction false} ChainSplitsUsage(begin: int, tiers: seq<PriceDimension>, usage: int)
    requires ChainFrom(begin, tiers)
    ensures SumBands(tiers, usage) == if begin < usage then usage - begin else 0
    decreases |tiers|
  {
    assert tiers == [tiers[0]] + tiers[1..];
    SumBandsPrepend(tiers[0], tiers[1..], usage);
    if |tiers| > 1 {
      ChainSplitsUsage(tiers[0].endRange.n, tiers[1..], usage);
    }
  }

  /** A schedule starting at 0 bills every unit of a non-negative usage exactly once. */
  lemma ScheduleBillsAllUsage(tiers: seq<PriceDimension>, usage: int)
    requires ChainFrom(0, tiers) && 0 <= usage
    ensures SumBands(tiers, usage) == usage
  {
    ChainSplitsUsage(0, tiers, usage);
  }

  /** The tier-closure and top-tier examples: (0, 100] at 2.0, and (1000, INFINITY) at 0.5. */
  lemma BandExamples()
    ensures BillableBandCsv(CsvRow(Some(0), Given(Finite(100)), 2.0, "", ""), 50) == Scored(50, 2.0, 100.0)
    ensures BillableBandCsv(CsvRow(Some(0), Given(Finite(100)), 2.0, "", ""), 150) == Scored(100, 2.0, 200.0)
    ensures BillableBandCsv(CsvRow(Some(0), Given(Finite(100)), 2.0, "", ""), 0) == Scored(0, 2.0, 0.0)
    ensures BillableBandCsv(CsvRow(Some(1000), Blank, 0.5, "", ""), 1500) == Scored(500, 0.5, 250.0)
    ensures BillableBandCsv(CsvRow(Some(1000), Blank, 0.5, "", ""), 1000) == Scored(0, 0.5, 0.0)
  {
  }
}
