/**
 * The pricing aggregator, calculate_price in awspricecalculator/common/phelper.py:
 * it scores every row the store returns for a query, adds every charge to a
 * running cost and appends a pricing record to the caller's list for every
 * row with non-zero billable usage.
 */
module Pricing {
  import opened Wrappers
  import opened BillableBand

  /** One line item, the attributes of a PricingRecord. */
  datatype PricingRecord = PricingRecord(service: string, amount: real, priceDescription: string,
                                         pricePerUnit: real, usage: int, rateCode: string)

  /** NoDataFoundError, carrying the service and the query named in its message. */
  datatype PricingError = NoDataFound(service: string, query: string)

  /**
   * Python 2's round(x, 4): the nearest multiple of 1/10000, halves rounded away from zero.
   */
  function Round4(x: real): (r: real)
    ensures -0.00005 <= r - x <= 0.00005
    ensures (r * 10000.0).Floor as real == r * 10000.0
    ensures 0.0 <= x ==> 0.0 <= r
    ensures x <= 0.0 ==> r <= 0.0
  {
    var n: int := if 0.0 <= x then (x * 10000.0 + 0.5).Floor else -((-x * 10000.0 + 0.5).Floor);
    assert 0.0 <= x ==> n as real <= x * 10000.0 + 0.5 < n as real + 1.0;
    assert x < 0.0 ==> n as real - 1.0 < x * 10000.0 - 0.5 <= n as real;
    n as real / 10000.0
  }

  /** The record calculate_price builds for a row whose score is `s`. */
  function RecordOf(service: string, row: CsvRow, s: Scored): PricingRecord {
    PricingRecord(service, Round4(s.amount), row.priceDescription, s.pricePerUnit, s.billableBand, row.rateCode)
  }

  /** The records appended for the rows of a result set, in result-set order. */
  function NewRecords(service: string, rows: seq<CsvRow>, usage: int): (recs: seq<PricingRecord>)
    ensures |recs| <= |rows|
    ensures forall i :: 0 <= i < |recs| ==> recs[i].service == service && recs[i].usage != 0
    decreases |rows|
  {
    if rows == [] then []
    else
      var last := rows[|rows| - 1];
      var s := BillableBandCsv(last, usage);
      NewRecords(service, rows[..|rows| - 1], usage) + (if s.billableBand != 0 then [RecordOf(service, last, s)] else [])
  }

  /** The sum of the (unrounded) charges of all rows of a result set. */
  function AddedCost(rows: seq<CsvRow>, usage: int): (added: real)
    ensures (forall i :: 0 <= i < |rows| ==> 0.0 <= rows[i].pricePerUnit) ==> 0.0 <= added
    decreases |rows|
  {
    if rows == [] then 0.0 else AddedCost(rows[..|rows| - 1], usage) + BillableBandCsv(rows[|rows| - 1], usage).amount
  }

  /** The caller's list of pricing records, which calculate_price appends to in place. */
  class RecordList {
    var items: seq<PricingRecord>

    constructor (initial: seq<PricingRecord>)
      ensures items == initial
    {
      items := initial;
    }

    method Append(r: PricingRecord)
      modifies this
      ensures items == old(items) + [r]
    {
      items := items + [r];
    }
  }

  /**
   * calculate_price. `resultSet` is what the store returned for `query`; the
   * new cost is returned, the records are appended to `records`.
   */
  method CalculatePrice(service: string, resultSet: seq<CsvRow>, query: string, usage: int,
                        records: RecordList, cost: real)
    returns (result: Result<real, PricingError>)
    modifies records
    ensures resultSet == [] ==> result == Failure(NoDataFound(service, query)) && records.items == old(records.items)
    ensures resultSet != [] ==> result == Success(cost + AddedCost(resultSet, usage))
    ensures resultSet != [] ==> records.items == old(records.items) + NewRecords(service, resultSet, usage)
  {
    if resultSet == [] {
      return Failure(NoDataFound(service, query));
    }
    var total := cost;
    for i := 0 to |resultSet|
      invariant total == cost + AddedCost(resultSet[..i], usage)
      invariant records.items == old(records.items) + NewRecords(service, resultSet[..i], usage)
    {
      var r := resultSet[i];
      var s := BillableBandCsv(r, usage);
      total := total + s.amount;
      if s.billableBand != 0 {
        records.Append(RecordOf(service, r, s));
      }
      assert resultSet[..i + 1][..i] == resultSet[..i];
    }
    assert resultSet[..|resultSet|] == resultSet;
    return Success(total);
  }

  /** The sum of the (rounded) amounts of some records. */
  function RecordedAmount(recs: seq<PricingRecord>): real
    decreases |recs|
  {
    if recs == [] then 0.0 else RecordedAmount(recs[..|recs| - 1]) + recs[|recs| - 1].amount
  }

  /** The sum of the billable usage of some records. */
  function RecordedUsage(recs: seq<PricingRecord>): int
    decreases |recs|
  {
    if recs == [] then 0 else RecordedUsage(recs[..|recs| - 1]) + recs[|recs| - 1].usage
  }

  lemma {:induction false} RecordedSumsAppend(a: seq<PricingRecord>, b: seq<PricingRecord>)
    ensures RecordedAmount(a + b) == RecordedAmount(a) + RecordedAmount(b)
    ensures RecordedUsage(a + b) == RecordedUsage(a) + RecordedUsage(b)
    decreases |b|
  {
    if b != [] {
      var init := b[..|b| - 1];
      assert (a + b)[..|a + b| - 1] == a + init;
      assert (a + b)[|a + b| - 1] == b[|b| - 1];
      RecordedSumsAppend(a, init);
    } else {
      assert a + b == a;
    }
  }

  /**
   * The cost added by a query and the sum of the amounts recorded for it
   * differ only by the rounding of each record, at most 0.00005 per record.
   */
  lemma {:induction false} CostMatchesRecords(service: string, rows: seq<CsvRow>, usage: int)
    ensures var recs := NewRecords(service, rows, usage);
      -0.00005 * |recs| as real <= RecordedAmount(recs) - AddedCost(rows, usage) <= 0.00005 * |recs| as real
    decreases |rows|
  {
    if rows != [] {
      var init := rows[..|rows| - 1];
      var last := rows[|rows| - 1];
      var s := BillableBandCsv(last, usage);
      CostMatchesRecords(service, init, usage);
      var extra := if s.billableBand != 0 then [RecordOf(service, last, s)] else [];
      RecordedSumsAppend(NewRecords(service, init, usage), extra);
      if s.billableBand != 0 {
        assert RecordedAmount(extra) == Round4(s.amount);
      }
    }
  }

  /**
   * The tiers of the rows of a result set, in order. The ensures restate the
   * body; they are kept because RecordedUsageIsSumOfBands needs them to stay
   * within the solver's resource limit.
   */
  function TiersOf(rows: seq<CsvRow>): (tiers: seq<PriceDimension>)
    ensures |tiers| == |rows|
    ensures forall i :: 0 <= i < |rows| ==> tiers[i] == TierOf(rows[i])
  {
    seq(|rows|, i requires 0 <= i < |rows| => TierOf(rows[i]))
  }

  /** The billable usage recorded for a query is the sum of the bands of all its rows. */
  lemma {:induction false} RecordedUsageIsSumOfBands(service: string, rows: seq<CsvRow>, usage: int)
    ensures RecordedUsage(NewRecords(service, rows, usage)) == SumBands(TiersOf(rows), usage)
    decreases |rows|
  {
    if rows != [] {
      var init := rows[..|rows| - 1];
      var last := rows[|rows| - 1];
      var s := BillableBandCsv(last, usage);
      RecordedUsageIsSumOfBands(service, init, usage);
      var extra := if s.billableBand != 0 then [RecordOf(service, last, s)] else [];
      RecordedSumsAppend(NewRecords(service, init, usage), extra);
      assert TiersOf(rows)[..|rows| - 1] == TiersOf(init);
    }
  }

  /**
   * When the rows form a consecutive schedule from 0, the records of one query
   * bill the whole (non-negative) usage, each unit in exactly one record.
   */
  lemma RecordsBillAllUsage(service: string, rows: seq<CsvRow>, usage: int)
    requires ChainFrom(0, TiersOf(rows)) && 0 <= usage
    ensures RecordedUsage(NewRecords(service, rows, usage)) == usage
  {
    RecordedUsageIsSumOfBands(service, rows, usage);
    ScheduleBillsAllUsage(TiersOf(rows), usage);
  }

  /**
   * Threading the same accumulator through two queries gives the records and
   * cost of one query over both result sets.
   */
  lemma {:induction false} QueriesCompose(service: string, a: seq<CsvRow>, b: seq<CsvRow>, usage: int)
    ensures NewRecords(service, a + b, usage) == NewRecords(service, a, usage) + NewRecords(service, b, usage)
    ensures AddedCost(a + b, usage) == AddedCost(a, usage) + AddedCost(b, usage)
    decreases |b|
  {
    if b != [] {
      var init := b[..|b| - 1];
      assert (a + b)[..|a + b| - 1] == a + init;
      assert (a + b)[|a + b| - 1] == b[|b| - 1];
      QueriesCompose(service, a, init, usage);
    } else {
      assert a + b == a;
    }
  }

  /** Three tiers scoring 0, 30 and 0 units at 2.0 per unit for the middle one give one record of 60.0. */
  lemma AggregationExample()
    ensures var rows := [CsvRow(Some(100), Given(Finite(200)), 1.0, "high", "A"),
                         CsvRow(Some(10), Given(Finite(100)), 2.0, "mid", "B"),
                         CsvRow(Some(200), Blank, 3.0, "top", "C")];
      NewRecords("S", rows, 40) == [PricingRecord("S", 60.0, "mid", 2.0, 30, "B")] &&
      AddedCost(rows, 40) == 60.0
  {
    var rows := [CsvRow(Some(100), Given(Finite(200)), 1.0, "high", "A"),
                 CsvRow(Some(10), Given(Finite(100)), 2.0, "mid", "B"),
                 CsvRow(Some(200), Blank, 3.0, "top", "C")];
    assert rows[..2][..1] == rows[..1];
    assert AddedCost(rows[..1], 40) == 0.0;
    assert AddedCost(rows[..2], 40) == 60.0;
  }
}
