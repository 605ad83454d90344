/**
 * The SKU table, buildSkuTable in awspricecalculator/common/phelper.py: the
 * line items sorted in ascending tuple order, one text line per item, and the
 * sum of their amounts.
 */
module SkuTable {

  /** One evaluated line item, the tuple (amount, description, price per unit, usage, rate code). */
  datatype SkuItem = SkuItem(amount: real, description: string, pricePerUnit: real, usage: real, rateCode: string)

  /** The dictionary buildSkuTable returns: header, records text and total. */
  datatype Table = Table(header: string, records: string, total: real)

  const Header: string := "Price | Description | Price Per Unit | Usage | Rate Code"

  // ---------------------------------------------------------------------------
  // Python 2's ordering of strings and of line-item tuples

  /** String comparison: lexicographic on character codes, a proper prefix first. */
  predicate StrLe(a: string, b: string)
    decreases |a|
  {
    |a| == 0 || (|b| > 0 && (a[0] < b[0] || (a[0] == b[0] && StrLe(a[1..], b[1..]))))
  }

  lemma {:induction false} StrLeTotal(a: string, b: string)
    ensures StrLe(a, b) || StrLe(b, a)
    decreases |a|
  {
    if |a| > 0 && |b| > 0 && a[0] == b[0] {
      StrLeTotal(a[1..], b[1..]);
    }
  }

  lemma {:induction false} StrLeAntisymmetric(a: string, b: string)
    requires StrLe(a, b) && StrLe(b, a)
    ensures a == b
    decreases |a|
  {
    if |a| > 0 {
      StrLeAntisymmetric(a[1..], b[1..]);
      assert a == [a[0]] + a[1..] && b == [b[0]] + b[1..];
    }
  }

  lemma {:induction false} StrLeTransitive(a: string, b: string, c: string)
    requires StrLe(a, b) && StrLe(b, c)
    ensures StrLe(a, c)
    decreases |a|
  {
    if |a| > 0 && a[0] == b[0] && b[0] == c[0] {
      StrLeTransitive(a[1..], b[1..], c[1..]);
    }
  }

  /** Tuple comparison: the first differing component decides. */
  predicate ItemLe(x: SkuItem, y: SkuItem) {
    if x.amount != y.amount then x.amount < y.amount
    else if x.description != y.description then StrLe(x.description, y.description)
    else if x.pricePerUnit != y.pricePerUnit then x.pricePerUnit < y.pricePerUnit
    else if x.usage != y.usage then x.usage < y.usage
    else StrLe(x.rateCode, y.rateCode)
  }

  lemma ItemLeTotal(x: SkuItem, y: SkuItem)
    ensures ItemLe(x, y) || ItemLe(y, x)
  {
    StrLeTotal(x.description, y.description);
    StrLeTotal(x.rateCode, y.rateCode);
  }

  lemma ItemLeAntisymmetric(x: SkuItem, y: SkuItem)
    requires ItemLe(x, y) && ItemLe(y, x)
    ensures x == y
  {
    if x.description != y.description && x.amount == y.amount {
      StrLeAntisymmetric(x.description, y.description);
    }
    if x.rateCode != y.rateCode && x.amount == y.amount && x.description == y.description
       && x.pricePerUnit == y.pricePerUnit && x.usage == y.usage {
      StrLeAntisymmetric(x.rateCode, y.rateCode);
    }
  }

  lemma ItemLeTransitive(x: SkuItem, y: SkuItem, z: SkuItem)
    requires ItemLe(x, y) && ItemLe(y, z)
    ensures ItemLe(x, z)
  {
    if x.amount == y.amount == z.amount {
      if x.description != y.description && y.description != z.description {
        StrLeTransitive(x.description, y.description, z.description);
        if x.description == z.description {
          StrLeAntisymmetric(x.description, y.description);
        }
      } else if x.description == y.description == z.description {
        if x.pricePerUnit == y.pricePerUnit == z.pricePerUnit && x.usage == y.usage == z.usage {
          StrLeTransitive(x.rateCode, y.rateCode, z.rateCode);
        }
      }
    }
  }

  /** Ascending order of the whole sequence. */
  predicate Sorted(s: seq<SkuItem>) {
    forall i, j :: 0 <= i < j < |s| ==> ItemLe(s[i], s[j])
  }

  // ---------------------------------------------------------------------------
  // sorted()

  function Insert(x: SkuItem, s: seq<SkuItem>): (r: seq<SkuItem>)
    ensures multiset(r) == multiset(s) + multiset{x}
    ensures |r| == |s| + 1
    decreases |s|
  {
    if s == [] then [x]
    else if ItemLe(x, s[0]) then [x] + s
    else
      assert s == [s[0]] + s[1..];
      [s[0]] + Insert(x, s[1..])
  }

  /** sorted(): the items in ascending tuple order. */
  function SortItems(s: seq<SkuItem>): (r: seq<SkuItem>)
    ensures multiset(r) == multiset(s)
    ensures |r| == |s|
    decreases |s|
  {
    if s == [] then []
    else
      assert s == [s[0]] + s[1..];
      Insert(s[0], SortItems(s[1..]))
  }

  lemma {:induction false} InsertKeepsSorted(x: SkuItem, s: seq<SkuItem>)
    requires Sorted(s)
    ensures Sorted(Insert(x, s))
    decreases |s|
  {
    if s != [] && !ItemLe(x, s[0]) {
      InsertKeepsSorted(x, s[1..]);
      ItemLeTotal(x, s[0]);
      var r := Insert(x, s[1..]);
      forall k | 0 <= k < |r| ensures ItemLe(s[0], r[k]) {
        assert r[k] in multiset(r);
        if r[k] != x {
          assert r[k] in multiset(s[1..]);
          var j :| 0 <= j < |s[1..]| && s[1..][j] == r[k];
          assert s[j + 1] == r[k];
        }
      }
    } else if s != [] {
      forall j | 0 <= j < |s| ensures ItemLe(x, s[j]) {
        if j > 0 {
          ItemLeTransitive(x, s[0], s[j]);
        }
      }
    }
  }

  /** The output of sorted() is in ascending order and a permutation of the input. */
  lemma {:induction false} SortItemsSorted(s: seq<SkuItem>)
    ensures Sorted(SortItems(s))
    ensures multiset(SortItems(s)) == multiset(s)
    decreases |s|
  {
    if s != [] {
      SortItemsSorted(s[1..]);
      InsertKeepsSorted(s[0], SortItems(s[1..]));
    }
  }

  /** Two ascending permutations of the same non-empty items start with the same item. */
  lemma SortedPermutationsShareHead(a: seq<SkuItem>, b: seq<SkuItem>)
    requires Sorted(a) && Sorted(b) && multiset(a) == multiset(b) && |a| > 0
    ensures |b| > 0 && a[0] == b[0]
  {
    assert a[0] in multiset(b);
    var j :| 0 <= j < |b| && b[j] == a[0];
    assert b[0] in multiset(a);
    var i :| 0 <= i < |a| && a[i] == b[0];
    if i > 0 && j > 0 {
      ItemLeAntisymmetric(a[0], b[0]);
    }
  }

  /** Two ascending permutations of the same items are equal: the sorted order is unique. */
  lemma {:induction false} SortedPermutationsEqual(a: seq<SkuItem>, b: seq<SkuItem>)
    requires Sorted(a) && Sorted(b) && multiset(a) == multiset(b)
    ensures a == b
    decreases |a|
  {
    if |a| == 0 {
      assert |b| == |multiset(b)| == 0;
    } else {
      SortedPermutationsShareHead(a, b);
      assert a == [a[0]] + a[1..] && b == [b[0]] + b[1..];
      assert multiset(a) == multiset{a[0]} + multiset(a[1..]);
      assert multiset(b) == multiset{b[0]} + multiset(b[1..]);
      forall x ensures multiset(a[1..])[x] == multiset(b[1..])[x] {
        assert multiset(a)[x] == multiset(b)[x];
      }
      assert multiset(a[1..]) == multiset(b[1..]);
      assert Sorted(a[1..]) && Sorted(b[1..]);
      SortedPermutationsEqual(a[1..], b[1..]);
    }
  }

  /** Any ascending permutation of the items is what sorted() returns. */
  lemma SortIsTheSortedPermutation(s: seq<SkuItem>, t: seq<SkuItem>)
    requires Sorted(t) && multiset(t) == multiset(s)
    ensures SortItems(s) == t
  {
    SortItemsSorted(s);
    SortedPermutationsEqual(SortItems(s), t);
  }

  // ---------------------------------------------------------------------------
  // Rendering and the total

  /**
   * One table line: "$" amount | description | price per unit | usage | rate code,
   * and a newline. `show` stands for Python's str() of a number.
   */
  function Line(x: SkuItem, show: real -> string): (line: string)
    ensures |line| > 0 && line[0] == '$' && line[|line| - 1] == '\n'
  {
    "$" + show(x.amount) + "|" + x.description + "|" + show(x.pricePerUnit) + "|" + show(x.usage) + "|" + x.rateCode + "\n"
  }

  /** The lines of some items, concatenated in order. */
  function Lines(s: seq<SkuItem>, show: real -> string): string
    decreases |s|
  {
    if s == [] then "" else Lines(s[..|s| - 1], show) + Line(s[|s| - 1], show)
  }

  /** The sum of the amounts of some items. */
  function SumAmounts(s: seq<SkuItem>): (total: real)
    ensures (forall i :: 0 <= i < |s| ==> 0.0 <= s[i].amount) ==> 0.0 <= total
    decreases |s|
  {
    if s == [] then 0.0 else SumAmounts(s[..|s| - 1]) + s[|s| - 1].amount
  }

  /** buildSkuTable: sort the items, render one line each, and add up the amounts. */
  method BuildSkuTable(evaluatedSkuDesc: seq<SkuItem>, show: real -> string) returns (table: Table)
    ensures table.header == Header
    ensures table.records == Lines(SortItems(evaluatedSkuDesc), show)
    ensures table.total == SumAmounts(evaluatedSkuDesc)
  {
    var sortedDescriptions := SortItems(evaluatedSkuDesc);
    var resultRecords := "";
    var total := 0.0;
    for i := 0 to |sortedDescriptions|
      invariant resultRecords == Lines(sortedDescriptions[..i], show)
      invariant total == SumAmounts(sortedDescriptions[..i])
    {
      var s := sortedDescriptions[i];
      resultRecords := resultRecords + Line(s, show);
      total := total + s.amount;
      assert sortedDescriptions[..i + 1][..i] == sortedDescriptions[..i];
    }
    assert sortedDescriptions[..|sortedDescriptions|] == sortedDescriptions;
    SumAmountsOfSort(evaluatedSkuDesc);
    table := Table(Header, resultRecords, total);
  }

  lemma {:induction false} SumAmountsAppend(a: seq<SkuItem>, b: seq<SkuItem>)
    ensures SumAmounts(a + b) == SumAmounts(a) + SumAmounts(b)
    decreases |b|
  {
    if b == [] {
      assert a + b == a;
    } else {
      assert (a + b)[..|a + b| - 1] == a + b[..|b| - 1];
      assert (a + b)[|a + b| - 1] == b[|b| - 1];
      SumAmountsAppend(a, b[..|b| - 1]);
    }
  }

  lemma {:induction false} SumAmountsOfInsert(x: SkuItem, s: seq<SkuItem>)
    ensures SumAmounts(Insert(x, s)) == x.amount + SumAmounts(s)
    decreases |s|
  {
    if s == [] {
      assert [x][..0] == [];
    } else if ItemLe(x, s[0]) {
      SumAmountsAppend([x], s);
      assert [x][..0] == [];
    } else {
      SumAmountsOfInsert(x, s[1..]);
      SumAmountsAppend([s[0]], Insert(x, s[1..]));
      SumAmountsAppend([s[0]], s[1..]);
      assert [s[0]][..0] == [];
      assert s == [s[0]] + s[1..];
    }
  }

  /** Sorting does not change the total of the amounts. */
  lemma {:induction false} SumAmountsOfSort(s: seq<SkuItem>)
    ensures SumAmounts(SortItems(s)) == SumAmounts(s)
    decreases |s|
  {
    if s != [] {
      SumAmountsOfSort(s[1..]);
      SumAmountsOfInsert(s[0], SortItems(s[1..]));
      SumAmountsAppend([s[0]], s[1..]);
      assert [s[0]][..0] == [];
      assert s == [s[0]] + s[1..];
    }
  }

  // ---------------------------------------------------------------------------
  // Line count

  /** How often a character occurs in a string. */
  function Occurrences(c: char, s: string): nat
    decreases |s|
  {
    if s == [] then 0 else (if s[0] == c then 1 else 0) + Occurrences(c, s[1..])
  }

  lemma {:induction false} OccurrencesAppend(c: char, a: string, b: string)
    ensures Occurrences(c, a + b) == Occurrences(c, a) + Occurrences(c, b)
    decreases |a|
  {
    if a == [] {
      assert a + b == b;
    } else {
      assert (a + b)[1..] == a[1..] + b;
      OccurrencesAppend(c, a[1..], b);
    }
  }

  lemma {:induction false} OccurrencesAbsent(c: char, s: string)
    requires c !in s
    ensures Occurrences(c, s) == 0
    decreases |s|
  {
    if s != [] {
      OccurrencesAbsent(c, s[1..]);
    }
  }

  /** No field of the item renders with a newline in it. */
  predicate RendersOnOneLine(x: SkuItem, show: real -> string) {
    '\n' !in show(x.amount) && '\n' !in x.description && '\n' !in show(x.pricePerUnit) &&
    '\n' !in show(x.usage) && '\n' !in x.rateCode
  }

  lemma LineHasOneNewline(x: SkuItem, show: real -> string)
    requires RendersOnOneLine(x, show)
    ensures Occurrences('\n', Line(x, show)) == 1
  {
    var nl := '\n';
    var p1 := "$" + show(x.amount) + "|";
    var p2 := p1 + x.description + "|";
    var p3 := p2 + show(x.pricePerUnit) + "|";
    var p4 := p3 + show(x.usage) + "|";
    var p5 := p4 + x.rateCode;
    assert Line(x, show) == p5 + "\n";
    OccurrencesAbsent(nl, show(x.amount));
    OccurrencesAbsent(nl, x.description);
    OccurrencesAbsent(nl, show(x.pricePerUnit));
    OccurrencesAbsent(nl, show(x.usage));
    OccurrencesAbsent(nl, x.rateCode);
    assert Occurrences(nl, "$") == 0 && Occurrences(nl, "|") == 0 && Occurrences(nl, "\n") == 1;
    OccurrencesAppend(nl, "$", show(x.amount));
    OccurrencesAppend(nl, "$" + show(x.amount), "|");
    OccurrencesAppend(nl, p1, x.description);
    OccurrencesAppend(nl, p1 + x.description, "|");
    OccurrencesAppend(nl, p2, show(x.pricePerUnit));
    OccurrencesAppend(nl, p2 + show(x.pricePerUnit), "|");
    OccurrencesAppend(nl, p3, show(x.usage));
    OccurrencesAppend(nl, p3 + show(x.usage), "|");
    OccurrencesAppend(nl, p4, x.rateCode);
    OccurrencesAppend(nl, p5, "\n");
  }

  lemma {:induction false} LinesCount(s: seq<SkuItem>, show: real -> string)
    requires forall i :: 0 <= i < |s| ==> RendersOnOneLine(s[i], show)
    ensures Occurrences('\n', Lines(s, show)) == |s|
    decreases |s|
  {
    if s != [] {
      LinesCount(s[..|s| - 1], show);
      LineHasOneNewline(s[|s| - 1], show);
      OccurrencesAppend('\n', Lines(s[..|s| - 1], show), Line(s[|s| - 1], show));
    }
  }

  /** When no field renders with a newline, the records text has exactly one line per item. */
  lemma TableLineCount(items: seq<SkuItem>, show: real -> string)
    requires forall i :: 0 <= i < |items| ==> RendersOnOneLine(items[i], show)
    ensures Occurrences('\n', Lines(SortItems(items), show)) == |items|
  {
    var sorted := SortItems(items);
    forall k | 0 <= k < |sorted| ensures RendersOnOneLine(sorted[k], show) {
      assert sorted[k] in multiset(items);
      var j :| 0 <= j < |items| && items[j] == sorted[k];
    }
    LinesCount(sorted, show);
  }

  /** The table lists line items by ascending amount: the cheapest line comes first. */
  lemma SortedByAmount(items: seq<SkuItem>)
    ensures forall i, j :: 0 <= i < j < |SortItems(items)| ==> SortItems(items)[i].amount <= SortItems(items)[j].amount
  {
    SortItemsSorted(items);
  }
}
