/** The spend chart: for a list of categories, the share of all
    withdrawals that each one accounts for, rounded down to a multiple of
    ten, drawn as a column of `o` marks over eleven rows labelled 100 to 0,
    with the category names written vertically underneath. */
module SpendChart {
  import opened Text
  import opened Budget

  // ---------------------------------------------------------------
  // Spending and percentages.
  // ---------------------------------------------------------------

  /** The sum of the negative amounts of a ledger; deposits do not count. */
  function Spent(ledger: seq<Entry>): (r: int)
    ensures r <= 0 && r <= Sum(ledger)
    ensures (forall k :: 0 <= k < |ledger| ==> ledger[k].amount >= 0) ==> r == 0
    ensures (forall k :: 0 <= k < |ledger| ==> ledger[k].amount < 0) ==> r == Sum(ledger)
  {
    if ledger == [] then 0
    else
      var last := ledger[|ledger| - 1].amount;
      Spent(ledger[..|ledger| - 1]) + (if last < 0 then last else 0)
  }

  /** The withdrawals of a ledger: its entries with a negative amount, each
      as often as in the ledger, in ledger order (see `WithdrawalsConcat`). */
  function Withdrawals(ledger: seq<Entry>): (r: seq<Entry>)
    ensures forall e :: multiset(r)[e] == if e.amount < 0 then multiset(ledger)[e] else 0
    ensures forall e :: e in r <==> e in ledger && e.amount < 0
  {
    if ledger == [] then []
    else
      var front := ledger[..|ledger| - 1];
      var last := ledger[|ledger| - 1];
      assert ledger == front + [last];
      Withdrawals(front) + (if last.amount < 0 then [last] else [])
  }

  /** A single entry is kept exactly when it is a withdrawal. */
  lemma WithdrawalsSingle(e: Entry)
    ensures Withdrawals([e]) == if e.amount < 0 then [e] else []
  {
    assert [e][..0] == [];
  }

  /** Filtering a ledger made of two parts filters each part and keeps
      them in order; with `WithdrawalsSingle` this fixes the withdrawals
      to be the ledger's negative entries in ledger order. */
  lemma {:induction false} WithdrawalsConcat(a: seq<Entry>, b: seq<Entry>)
    ensures Withdrawals(a + b) == Withdrawals(a) + Withdrawals(b)
    decreases |b|
  {
    if b == [] {
      assert a + b == a;
    } else {
      var front := b[..|b| - 1];
      var last := b[|b| - 1];
      var tail := if last.amount < 0 then [last] else [];
      assert (a + b)[..|a + b| - 1] == a + front;
      WithdrawalsConcat(a, front);
      var wa, wf := Withdrawals(a), Withdrawals(front);
      assert Withdrawals(a + b) == wa + wf + tail;
      assert Withdrawals(b) == wf + tail;
      AppendAssoc(wa, wf, tail);
    }
  }

  lemma AppendAssoc(x: seq<Entry>, y: seq<Entry>, z: seq<Entry>)
    ensures x + y + z == x + (y + z)
  {
  }

  /** The spending of a category is the balance of its withdrawals alone:
      deposits, including incoming transfers, do not count. */
  lemma {:induction false} SpentIsWithdrawals(ledger: seq<Entry>)
    ensures Spent(ledger) == Sum(Withdrawals(ledger))
  {
    if ledger != [] {
      var front := ledger[..|ledger| - 1];
      var last := ledger[|ledger| - 1];
      SpentIsWithdrawals(front);
      SumConcat(Withdrawals(front), if last.amount < 0 then [last] else []);
      assert Sum([last]) == last.amount by {
        assert [last][..0] == [];
      }
    }
  }

  /** Python's `sum` over a list of integers. */
  function SumInts(xs: seq<int>): int
  {
    if xs == [] then 0 else SumInts(xs[..|xs| - 1]) + xs[|xs| - 1]
  }

  function SpentList(ledgers: seq<seq<Entry>>): seq<int>
  {
    seq(|ledgers|, i requires 0 <= i < |ledgers| => Spent(ledgers[i]))
  }

  /** The share of `spent` in `total`, in percent, rounded down to a
      multiple of ten: `10 * floor(abs(spent / total * 100) / 10)`. */
  function Percentage(spent: int, total: int): (r: int)
    requires total != 0
    ensures r >= 0 && r % 10 == 0
    ensures r * Abs(total) <= 100 * Abs(spent) < (r + 10) * Abs(total)
  {
    var q := Abs(spent) * 100 / Abs(total);
    FloorTens(q, Abs(spent) * 100, Abs(total));
    10 * (q / 10)
  }

  /** With `q` the quotient of `x` by `t`, the multiple of ten below `q`
      times `t` stays within `x`, and the next multiple of ten exceeds it. */
  lemma FloorTens(q: int, x: nat, t: nat)
    requires t > 0 && q == x / t
    ensures 10 * (q / 10) * t <= x < (10 * (q / 10) + 10) * t
  {
    var r := 10 * (q / 10);
    assert r <= q < r + 10;
    assert q * t <= x < (q + 1) * t;
    assert r * t <= q * t by { MulMonotone(r, q, t); }
    assert (q + 1) * t <= (r + 10) * t by { MulMonotone(q + 1, r + 10, t); }
  }

  lemma MulMonotone(a: int, b: int, t: nat)
    requires a <= b
    ensures a * t <= b * t
  {
    assert b * t - a * t == (b - a) * t;
  }

  function Percentages(spents: seq<int>, total: int): seq<int>
    requires total != 0
  {
    seq(|spents|, i requires 0 <= i < |spents| => Percentage(spents[i], total))
  }

  /** The percentages the chart draws for a list of ledgers. */
  function ChartPercentages(ledgers: seq<seq<Entry>>): (r: seq<int>)
    requires SumInts(SpentList(ledgers)) != 0
    ensures |r| == |ledgers|
  {
    Percentages(SpentList(ledgers), SumInts(SpentList(ledgers)))
  }

  /** A sum of non-positive numbers is at most each of them. */
  lemma {:induction false} SumNonPositive(xs: seq<int>)
    requires forall i :: 0 <= i < |xs| ==> xs[i] <= 0
    ensures SumInts(xs) <= 0
    ensures forall i :: 0 <= i < |xs| ==> SumInts(xs) <= xs[i]
  {
    if xs != [] {
      var front := xs[..|xs| - 1];
      SumNonPositive(front);
      assert forall i :: 0 <= i < |front| ==> front[i] == xs[i];
    }
  }

  /** Scaling each bucket by the total and summing stays within the sum of
      the spending it was rounded down from. */
  lemma {:induction false} SumScaledBound(p: seq<int>, s: seq<int>, t: nat)
    requires |p| == |s|
    requires forall i :: 0 <= i < |p| ==> p[i] * t <= 100 * -s[i]
    ensures SumInts(p) * t <= 100 * -SumInts(s)
  {
    if p != [] {
      var n := |p| - 1;
      SumScaledBound(p[..n], s[..n], t);
      assert SumInts(p) * t == SumInts(p[..n]) * t + p[n] * t;
    }
  }

  /** Each percentage is a multiple of ten from 0 to 100, the percentages
      add up to at most 100, and a category without withdrawals gets 0. */
  lemma {:induction false} ChartPercentagesBounded(ledgers: seq<seq<Entry>>)
    requires SumInts(SpentList(ledgers)) != 0
    ensures var p := ChartPercentages(ledgers);
      && (forall i :: 0 <= i < |p| ==> 0 <= p[i] <= 100 && p[i] % 10 == 0)
      && SumInts(p) <= 100
      && (forall i :: 0 <= i < |p| && Spent(ledgers[i]) == 0 ==> p[i] == 0)
  {
    var s := SpentList(ledgers);
    var total := SumInts(s);
    var p := ChartPercentages(ledgers);
    SumNonPositive(s);
    var t := Abs(total);
    assert t > 0;
    forall i | 0 <= i < |p|
      ensures 0 <= p[i] <= 100 && p[i] * t <= 100 * -s[i]
    {
      assert Abs(s[i]) <= t;
      assert p[i] * t <= 100 * t;
      if p[i] > 100 {
        MulMonotone(101, p[i], t);
      }
    }
    SumScaledBound(p, s, t);
    assert SumInts(p) * t <= 100 * t;
    if SumInts(p) > 100 {
      MulMonotone(101, SumInts(p), t);
    }
    forall i | 0 <= i < |p| && Spent(ledgers[i]) == 0
      ensures p[i] == 0
    {
      assert p[i] * t < 10 * t;
      if p[i] >= 10 {
        MulMonotone(10, p[i], t);
      }
    }
  }

  // ---------------------------------------------------------------
  // The chart text.
  // ---------------------------------------------------------------

  const ChartTitle := "Percentage spent by category\n"

  /** `f'{row:>3}'`: a row label right-aligned in three columns. */
  function Label(row: nat): (r: string)
    requires row <= 100
    ensures |r| == 3 && r[3 - |NatToString(row)|..] == NatToString(row)
    ensures forall i :: 0 <= i < 3 - |NatToString(row)| ==> r[i] == ' '
  {
    NatToStringBelowThousand(row);
    PadLeft(NatToString(row), 3)
  }

  function Cell(row: int, percentage: int): (r: string)
    ensures |r| == 3
  {
    if row > percentage then "   " else "o  "
  }

  /** The cells of one bar row, one per category, in order. */
  function Cells(row: int, percentages: seq<int>): string
  {
    if percentages == [] then ""
    else Cells(row, percentages[..|percentages| - 1]) + Cell(row, percentages[|percentages| - 1])
  }

  lemma {:induction false} CellsLength(row: int, percentages: seq<int>)
    ensures |Cells(row, percentages)| == 3 * |percentages|
  {
    if percentages != [] {
      CellsLength(row, percentages[..|percentages| - 1]);
    }
  }

  /** The cells for category `i` sit at columns `3 * i` to `3 * i + 2`. */
  lemma {:induction false} CellAt(row: int, percentages: seq<int>, i: nat)
    requires i < |percentages|
    ensures |Cells(row, percentages)| == 3 * |percentages|
    ensures Cells(row, percentages)[3 * i..3 * i + 3] == Cell(row, percentages[i])
  {
    var n := |percentages| - 1;
    var front := percentages[..n];
    CellsLength(row, percentages);
    CellsLength(row, front);
    if i < n {
      CellAt(row, front, i);
      assert front[i] == percentages[i];
    }
    BlockOfSnoc(Cells(row, front), Cell(row, percentages[n]), i, Cell(row, percentages[i]));
  }

  function BarRow(row: nat, percentages: seq<int>): string
    requires row <= 100
  {
    Label(row) + "| " + Cells(row, percentages) + "\n"
  }

  /** The cell of category `i` in a bar row: `o  ` when the row is at or
      below the category's percentage, three spaces otherwise. */
  lemma BarRowCell(row: nat, percentages: seq<int>, i: nat)
    requires row <= 100 && i < |percentages|
    ensures |BarRow(row, percentages)| == 6 + 3 * |percentages|
    ensures BarRow(row, percentages)[5 + 3 * i..8 + 3 * i] == if row <= percentages[i] then "o  " else "   "
  {
    var c := Cells(row, percentages);
    CellAt(row, percentages, i);
    var head := Label(row) + "| ";
    assert BarRow(row, percentages) == head + (c + "\n");
    SliceRight(head, c + "\n", 3 * i, 3 * i + 3);
    SliceLeft(c, "\n", 3 * i, 3 * i + 3);
  }

  /** A bar row: the label, `| `, one three-column cell per category
      (see `BarRowCell`), a line break. */
  lemma BarRowShape(row: nat, percentages: seq<int>)
    requires row <= 100
    ensures var r := BarRow(row, percentages);
      && |r| == 6 + 3 * |percentages|
      && r[..3] == Label(row) && r[3..5] == "| " && r[|r| - 1] == '\n'
      && forall i :: 0 <= i < |percentages| ==>
           r[5 + 3 * i..8 + 3 * i] == if row <= percentages[i] then "o  " else "   "
  {
    CellsLength(row, percentages);
    forall i | 0 <= i < |percentages|
      ensures BarRow(row, percentages)[5 + 3 * i..8 + 3 * i] == if row <= percentages[i] then "o  " else "   "
    {
      BarRowCell(row, percentages, i);
    }
  }

  /** The first `k` bar rows, for the rows 100, 90, ... counting down. */
  function BarLines(k: nat, percentages: seq<int>): (r: seq<string>)
    requires k <= 11
    ensures |r| == k
  {
    if k == 0 then [] else BarLines(k - 1, percentages) + [BarRow(100 - 10 * (k - 1), percentages)]
  }

  /** Bar line `j` is the row labelled `100 - 10 * j`: exactly eleven rows,
      labelled 100, 90, ..., 0 from the top. */
  lemma {:induction false} BarLinesAt(k: nat, percentages: seq<int>, j: nat)
    requires j < k <= 11
    ensures BarLines(k, percentages)[j] == BarRow(100 - 10 * j, percentages)
  {
    if j < k - 1 {
      BarLinesAt(k - 1, percentages, j);
    }
  }

  /** Four spaces, a dash, three dashes per category, a line break. */
  function Separator(n: nat): (r: string)
    ensures |r| == 3 * n + 6
    ensures r[..4] == "    " && r[3 * n + 5] == '\n'
    ensures forall i :: 4 <= i < 3 * n + 5 ==> r[i] == '-'
  {
    "    " + "-" + Repeat('-', 3 * n) + "\n"
  }

  function NameCell(name: string, row: nat): (r: string)
    ensures |r| == 3 && r[0] == (if row < |name| then name[row] else ' ')
    ensures r[1] == ' ' && r[2] == ' '
  {
    if row < |name| then [name[row]] + "  " else "   "
  }

  function NameCells(names: seq<string>, row: nat): string
  {
    if names == [] then "" else NameCells(names[..|names| - 1], row) + NameCell(names[|names| - 1], row)
  }

  function NameRow(names: seq<string>, row: nat): string
  {
    "     " + NameCells(names, row)
  }

  lemma {:induction false} NameCellsLength(names: seq<string>, row: nat)
    ensures |NameCells(names, row)| == 3 * |names|
  {
    if names != [] {
      NameCellsLength(names[..|names| - 1], row);
    }
  }

  /** The column block of the `i`-th name sits at columns `3 * i` to `3 * i + 2`. */
  lemma {:induction false} NameCellAt(names: seq<string>, row: nat, i: nat)
    requires i < |names|
    ensures |NameCells(names, row)| == 3 * |names|
    ensures NameCells(names, row)[3 * i..3 * i + 3] == NameCell(names[i], row)
  {
    var n := |names| - 1;
    var front := names[..n];
    NameCellsLength(names, row);
    NameCellsLength(front, row);
    if i < n {
      NameCellAt(front, row, i);
      assert front[i] == names[i];
    }
    BlockOfSnoc(NameCells(front, row), NameCell(names[n], row), i, NameCell(names[i], row));
  }

  /** The column block of name `i` in a name row: the name's character at
      that row and two spaces, or three spaces once the name has ended. */
  lemma NameRowCell(names: seq<string>, row: nat, i: nat)
    requires i < |names|
    ensures |NameRow(names, row)| == 5 + 3 * |names|
    ensures NameRow(names, row)[5 + 3 * i..8 + 3 * i] == NameCell(names[i], row)
  {
    NameCellAt(names, row, i);
    SliceRight("     ", NameCells(names, row), 3 * i, 3 * i + 3);
  }

  /** A name row: five spaces, then three columns per category holding
      the name's character at that row (or a space), and two spaces. */
  lemma NameRowShape(names: seq<string>, row: nat)
    ensures var r := NameRow(names, row);
      && |r| == 5 + 3 * |names|
      && r[..5] == "     "
      && forall i :: 0 <= i < |names| ==>
           && r[5 + 3 * i] == (if row < |names[i]| then names[i][row] else ' ')
           && r[6 + 3 * i] == ' ' && r[7 + 3 * i] == ' '
  {
    NameCellsLength(names, row);
    var r := NameRow(names, row);
    forall i | 0 <= i < |names|
      ensures && r[5 + 3 * i] == (if row < |names[i]| then names[i][row] else ' ')
              && r[6 + 3 * i] == ' ' && r[7 + 3 * i] == ' '
    {
      NameRowCell(names, row, i);
      assert r[5 + 3 * i..8 + 3 * i][0] == r[5 + 3 * i];
    }
  }

  /** `max(len(name) for name in names)`. */
  function MaxLen(names: seq<string>): (m: nat)
    requires names != []
    ensures forall i :: 0 <= i < |names| ==> |names[i]| <= m
    ensures exists i :: 0 <= i < |names| && |names[i]| == m
  {
    if |names| == 1 then |names[0]|
    else
      var front := MaxLen(names[..|names| - 1]);
      var last := |names[|names| - 1]|;
      if front >= last then front else last
  }

  /** Name row `j` with the line break that follows every name row but the last. */
  function NameLine(names: seq<string>, j: nat): string
    requires names != []
  {
    NameRow(names, j) + if j + 1 < MaxLen(names) then "\n" else ""
  }

  /** The first `k` name lines, for the character positions 0, 1, ... */
  function NameLines(names: seq<string>, k: nat): (r: seq<string>)
    requires names != [] && k <= MaxLen(names)
    ensures |r| == k
  {
    if k == 0 then [] else NameLines(names, k - 1) + [NameLine(names, k - 1)]
  }

  /** Name line `j` is the name row for character position `j`. */
  lemma {:induction false} NameLinesAt(names: seq<string>, k: nat, j: nat)
    requires names != [] && j < k <= MaxLen(names)
    ensures NameLines(names, k)[j] == NameLine(names, j)
  {
    if j < k - 1 {
      NameLinesAt(names, k - 1, j);
    }
  }

  lemma NameLinesStep(names: seq<string>, k: nat, line: string)
    requires names != [] && k < MaxLen(names) && line == NameLine(names, k)
    ensures Concat(NameLines(names, k + 1)) == Concat(NameLines(names, k)) + line
  {
    ConcatSnoc(NameLines(names, k), line);
  }

  /** The whole chart: the title, the eleven bar rows, the separator and
      one name row per character of the longest name. */
  function Chart(names: seq<string>, percentages: seq<int>): string
    requires names != []
  {
    ChartTitle + Concat(BarLines(11, percentages)) + Separator(|names|)
      + Concat(NameLines(names, MaxLen(names)))
  }

  /** The name rows end with the last of them, with no line break after it. */
  lemma NameLinesEnd(names: seq<string>)
    requires names != [] && MaxLen(names) > 0
    ensures var m := MaxLen(names);
      Concat(NameLines(names, m)) == Concat(NameLines(names, m - 1)) + NameRow(names, m - 1)
  {
    var m := MaxLen(names);
    assert NameLine(names, m - 1) == NameRow(names, m - 1) + "";
    NameLinesStep(names, m - 1, NameRow(names, m - 1));
  }

  /** A name row ends in a space: its last column's padding. */
  lemma NameRowEndsWithSpace(names: seq<string>, row: nat)
    requires names != []
    ensures var r := NameRow(names, row);
      |r| == 5 + 3 * |names| && r[|r| - 1] == ' '
  {
    var i := |names| - 1;
    NameRowCell(names, row, i);
    var r := NameRow(names, row);
    assert r[7 + 3 * i] == r[5 + 3 * i..8 + 3 * i][2];
  }

  /** The chart ends with the last name row and no line break after it. */
  lemma ChartEndsWithLastNameRow(names: seq<string>, percentages: seq<int>)
    requires names != [] && MaxLen(names) > 0
    ensures var c := Chart(names, percentages);
      var last := NameRow(names, MaxLen(names) - 1);
      |c| >= |last| && c[|c| - |last|..] == last && c[|c| - 1] == ' '
  {
    var m := MaxLen(names);
    var last := NameRow(names, m - 1);
    var front := Concat(NameLines(names, m - 1));
    NameLinesEnd(names);
    NameRowEndsWithSpace(names, m - 1);
    var prefix := ChartTitle + Concat(BarLines(11, percentages)) + Separator(|names|);
    assert Chart(names, percentages) == prefix + (front + last);
    EndsWithLast(prefix, front, last);
  }

  /** When every name is empty there are no name rows, and the chart ends
      with the separator's line break. */
  lemma ChartEndsWithSeparator(names: seq<string>, percentages: seq<int>)
    requires names != [] && MaxLen(names) == 0
    ensures var c := Chart(names, percentages);
      |c| >= |Separator(|names|)| && c[|c| - |Separator(|names|)|..] == Separator(|names|)
  {
    var c := Chart(names, percentages);
    var prefix := ChartTitle + Concat(BarLines(11, percentages));
    assert Concat(NameLines(names, 0)) == "";
    assert c == prefix + Separator(|names|);
  }

  // ---------------------------------------------------------------
  // create_spend_chart over the categories themselves.
  // ---------------------------------------------------------------

  function Names(categories: seq<Category>): seq<string>
  {
    seq(|categories|, i requires 0 <= i < |categories| => categories[i].name)
  }

  function Ledgers(categories: seq<Category>): (r: seq<seq<Entry>>)
    reads categories
    ensures |r| == |categories| && forall i :: 0 <= i < |r| ==> r[i] == categories[i].ledger
  {
    if categories == [] then []
    else Ledgers(categories[..|categories| - 1]) + [categories[|categories| - 1].ledger]
  }

  method CreateSpendChart(categories: seq<Category>) returns (output: string)
    requires categories != []
    requires SumInts(SpentList(Ledgers(categories))) != 0
    ensures output == Chart(Names(categories), ChartPercentages(Ledgers(categories)))
  {
    var names, spentCategories := NamesAndSpending(categories);
    output := ChartText(names, spentCategories);
  }

  /** The chart drawn from the names and the spending of the categories:
      the title, the bar rows, the separator, the name rows. */
  method ChartText(names: seq<string>, spentCategories: seq<int>) returns (output: string)
    requires names != [] && SumInts(spentCategories) != 0
    ensures output == Chart(names, Percentages(spentCategories, SumInts(spentCategories)))
  {
    output := ChartTitle;
    var totalSpent := SumInts(spentCategories);
    var percentages := PercentagesOf(spentCategories, totalSpent);
    var bars := BarsText(percentages);
    output := output + bars;
    output := output + ("    " + "-" + Repeat('-', 3 * |names|) + "\n");
    assert output == ChartTitle + bars + Separator(|names|);
    var nameRows := NameRowsText(names);
    output := output + nameRows;
    ChartParts(names, percentages, bars, nameRows);
  }

  lemma ChartParts(names: seq<string>, percentages: seq<int>, bars: string, nameRows: string)
    requires names != []
    requires bars == Concat(BarLines(11, percentages))
    requires nameRows == Concat(NameLines(names, MaxLen(names)))
    ensures Chart(names, percentages) == ChartTitle + bars + Separator(|names|) + nameRows
  {
  }

  /** The first loop of the chart: each category's name and spending, in order. */
  method NamesAndSpending(categories: seq<Category>) returns (names: seq<string>, spentCategories: seq<int>)
    ensures names == Names(categories)
    ensures spentCategories == SpentList(Ledgers(categories))
  {
    names := [];
    spentCategories := [];
    ghost var ledgers := Ledgers(categories);
    for i := 0 to |categories|
      invariant |names| == i && forall j :: 0 <= j < i ==> names[j] == categories[j].name
      invariant |spentCategories| == i && forall j :: 0 <= j < i ==> spentCategories[j] == Spent(ledgers[j])
    {
      names := names + [categories[i].name];
      var spentCategory := SpentInLedger(categories[i].ledger);
      spentCategories := spentCategories + [spentCategory];
    }
  }

  /** The second loop of the chart: one percentage per category. */
  method PercentagesOf(spentCategories: seq<int>, totalSpent: int) returns (percentages: seq<int>)
    requires totalSpent != 0
    ensures percentages == Percentages(spentCategories, totalSpent)
  {
    percentages := [];
    for i := 0 to |spentCategories|
      invariant |percentages| == i
      invariant forall j :: 0 <= j < i ==> percentages[j] == Percentage(spentCategories[j], totalSpent)
    {
      percentages := percentages + [Percentage(spentCategories[i], totalSpent)];
    }
  }

  /** The spending of one category, summed entry by entry. */
  method SpentInLedger(ledger: seq<Entry>) returns (spent: int)
    ensures spent == Spent(ledger)
  {
    spent := 0;
    for k := 0 to |ledger|
      invariant spent == Spent(ledger[..k])
    {
      assert ledger[..k + 1][..k] == ledger[..k];
      if ledger[k].amount < 0 {
        spent := spent + ledger[k].amount;
      }
    }
    assert ledger[..|ledger|] == ledger;
  }

  /** The eleven bar rows, for row = 100, 90, ..., 0. */
  method BarsText(percentages: seq<int>) returns (text: string)
    ensures text == Concat(BarLines(11, percentages))
  {
    text := "";
    var row := 100;
    ghost var done := 0;
    while row >= 0
      invariant 0 <= done <= 11 && row == 100 - 10 * done
      invariant text == Concat(BarLines(done, percentages))
      decreases row
    {
      var line := BarRowText(row, percentages);
      BarLinesStep(done, percentages, line);
      text := text + line;
      row := row - 10;
      done := done + 1;
    }
    assert done == 11;
  }

  lemma BarLinesStep(k: nat, percentages: seq<int>, line: string)
    requires k < 11 && line == BarRow(100 - 10 * k, percentages)
    ensures Concat(BarLines(k + 1, percentages)) == Concat(BarLines(k, percentages)) + line
  {
    ConcatSnoc(BarLines(k, percentages), line);
  }

  /** The name rows, a line break after every one but the last. */
  method NameRowsText(names: seq<string>) returns (text: string)
    requires names != []
    ensures text == Concat(NameLines(names, MaxLen(names)))
  {
    text := "";
    var longest := MaxLen(names);
    for r := 0 to longest
      invariant text == Concat(NameLines(names, r))
    {
      var line := NameRowText(names, r);
      if r < longest - 1 {
        line := line + "\n";
      }
      NameLinesStep(names, r, line);
      text := text + line;
    }
  }

  /** One bar row, built cell by cell. */
  method BarRowText(row: nat, percentages: seq<int>) returns (line: string)
    requires row <= 100
    ensures line == BarRow(row, percentages)
  {
    line := Label(row) + "| ";
    for i := 0 to |percentages|
      invariant line == Label(row) + "| " + Cells(row, percentages[..i])
    {
      assert percentages[..i + 1][..i] == percentages[..i];
      if row > percentages[i] {
        line := line + "   ";
      } else {
        line := line + "o  ";
      }
    }
    assert percentages[..|percentages|] == percentages;
    line := line + "\n";
  }

  /** One name row, built name by name. */
  method NameRowText(names: seq<string>, row: nat) returns (line: string)
    ensures line == NameRow(names, row)
  {
    line := "     ";
    for i := 0 to |names|
      invariant line == "     " + NameCells(names[..i], row)
    {
      assert names[..i + 1][..i] == names[..i];
      if row < |names[i]| {
        line := line + [names[i][row]] + "  ";
      } else {
        line := line + "   ";
      }
    }
    assert names[..|names|] == names;
  }
}
