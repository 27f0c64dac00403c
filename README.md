# Budget categories and the spend chart, in Dafny

This project models `budget.py`, a small budget application. It has two parts.

**`Category`** is a named budget category with an append-only ledger of signed entries. Deposits are positive and withdrawals negative.
- A withdrawal or an outgoing transfer goes through only when `check_funds` passes, that is, when the balance covers the amount.
- The balance is always recomputed as the sum of the ledger.
- A category renders as a text report:
  - a title line with the name centred between asterisks;
  - one line per entry, with the description cut or padded to 23 columns and the amount right-aligned with two decimals;
  - a `Total:` line.

**`create_spend_chart`** draws a text bar chart.
- Each category's share of all withdrawals is rounded down to a multiple of ten.
- The chart has eleven rows labelled 100 down to 0, with an `o` column per category.
- Below the rows come a dashed separator and the category names written vertically.

Files:
- `text.dfy` (module `Text`): the text operations the source takes from Python's string and format machinery:
  - repetition (`'*' * n`);
  - left and right justification in a field;
  - truncation (`s[:23]`);
  - decimal rendering of natural numbers, with its inverse.
- `budget.dfy` (module `Budget`):
  - the ledger entry datatype;
  - the ledger sum;
  - the two-decimal amount field, with its inverse;
  - the report lines;
  - the `Category` class, whose `ledger` field the methods append to in place.
- `chart.dfy` (module `SpendChart`):
  - the spending and percentage functions;
  - the chart text as a specification function `Chart`;
  - `CreateSpendChart` and the loops it runs, each proved equal to the matching part of `Chart`;
  - the listed properties of the percentages and of the chart's layout.

Modelling choices:
- Amounts are whole cents (`int`). `f'{x:7.2f}'` is modelled as the exact decimal rendering of a cent amount, right-aligned in seven columns. `ParseAmount` reads such a field back, and every rendering round-trips.
- Python's `//` by a positive number is floor division, which is Dafny's `/` on `int`.
- The percentage `10 * math.floor(abs(spent / total * 100) / 10)` is computed exactly as `10 * ((|spent| * 100 / |total|) / 10)`.
- The comment above `ledger_str` says an amount shows "a maximum of 7 characters". The code, however, gives a *minimum* width of 7: wider amounts overflow the field. The model follows the code. `FormatAmountWidth` states exactly which amounts fit in seven columns.
- The comment above `title` promises a 30-character line. The code gives 29 characters for names of odd length below 30, and as many characters as the name for names of 30 characters or more (no asterisks). The model follows the code, and `Category.Title` states both cases.
- When every category name is empty, the source draws no name rows, so the chart ends with the separator's line break. `ChartEndsWithSeparator` states this.

## Model

| member | source | states |
|---|---|---|
| Text.Repeat | budget.py:64 | `c * n` has `max(n, 0)` characters, all of them `c` |
| Text.PadRight | budget.py:71 | left-justified field: the text, then spaces up to the width, never cut |
| Text.PadLeft | budget.py:124 | right-justified field: spaces, then the text unchanged at the end, never cut |
| Text.Take | budget.py:71 | `s[:n]` is the prefix of length `min(n, len(s))` |
| Text.TrimLeftPadLeft | budget.py:71 | removing the padding of a right-justified field gives back the text it was made from |
| Text.NatToString | budget.py:124 | decimal digits, at least one, with no leading zero unless the number is 0; one digit exactly below 10 |
| Text.NatToStringRoundTrip | budget.py:124 | the digits read back as the number |
| Text.NatToStringWidth | budget.py:71 | a number takes at most `k` digits exactly when it is below `10^k` |
| Budget.SumConcat | budget.py:31-35 | `Sum`, the balance the loop of budget.py:31-35 accumulates, is additive: the sum of two ledgers joined is the sum of their sums |
| Budget.Fixed2 | budget.py:71 | two-decimal rendering: a minus sign exactly for negative amounts, whole units, a point, two digits; never starts with a space |
| Budget.TwoDigits | budget.py:71 | the cents part is exactly two digits denoting the cents |
| Budget.Unsigned2RoundTrip | budget.py:71 | `Unsigned2`, the unsigned part of the `.2f` rendering of budget.py:71 (units, point, two cent digits), reads back as its value |
| Budget.Fixed2RoundTrip | budget.py:71 | a signed two-decimal rendering reads back as its value |
| Budget.FormatAmount | budget.py:71 | the amount field is seven columns wide or as wide as the rendering, whichever is more: the two-decimal rendering `Fixed2` at its end, spaces before it |
| Budget.FormatAmountWidth | budget.py:67-71 | the field is exactly seven wide if and only if the amount is between -999.99 and 9999.99 |
| Budget.FormatAmountRoundTrip | budget.py:71 | every amount field reads back as the amount it shows |
| Budget.EntryLineShape | budget.py:67-71 | `EntryLine`, the line budget.py:71 writes for one entry, has the first `min(23, len(desc))` characters of the description, space padding to column 23, then exactly the entry's amount field `FormatAmount` (which reads back as the amount), and a final line break |
| Budget.LedgerTextLines | budget.py:68-72 | `LedgerText`, the text budget.py:68-72 accumulates, is one `EntryLine` per entry, in ledger order |
| Budget.TotalLine | budget.py:74-77 | the total line is `Total:` followed by exactly the balance's amount field `FormatAmount`, so it is `6 + max(7, rendering)` wide (13 for balances from -999.99 to 9999.99, by `FormatAmountWidth`), and the field reads back as the balance |
| Budget.Category.constructor | budget.py:7-9 | a new category has the given name and an empty ledger |
| Budget.Category.Deposit | budget.py:17-18 | appends exactly the entry `(amount, description)` and nothing else; the balance grows by the amount |
| Budget.Category.Withdraw | budget.py:24-28 | succeeds if and only if the amount is at most the old balance; on success it appends exactly `(-amount, description)` and the balance drops by the amount, so the new balance is never negative and withdrawing the whole balance leaves 0; on failure the ledger is unchanged |
| Budget.Category.GetBalance | budget.py:31-35 | the loop returns the sum of the ledger amounts |
| Budget.Category.Transfer | budget.py:38-43 | succeeds if and only if the amount is at most the source balance; on success the source gains `(-amount, "Transfer to " + destination name)` and its balance drops by the amount, and the destination gains `(amount, "Transfer from " + source name)` and its balance grows by the amount; on failure neither ledger changes; the two balances add up to the same total as before |
| Budget.Category.CheckFunds | budget.py:46-47 | true exactly when the amount is at most the balance |
| Budget.Category.Title | budget.py:61-65 | `(30 - len(name)) // 2` asterisks on each side of the name, none for names of 30 characters or more; 30 characters for an even-length name of at most 30 characters, 29 for an odd-length one below 30 |
| Budget.Category.LedgerStr | budget.py:68-72 | the loop's output is the ledger text, one entry line per entry |
| Budget.Category.Total | budget.py:75-77 | the total line of the current balance |
| Budget.Category.ToString | budget.py:55-59 | the report is the title line, a line break, the ledger text and the total line |
| Budget.DepositThenWithdraw | budget.py:17-28 | depositing and then withdrawing the same amount: the withdrawal succeeds exactly when the old balance was not negative; the ledger gains `+amount` and, on success, `-amount`; on success the balance is restored |
| SpendChart.Spent | budget.py:111-117 | spending is never positive and never above the balance; it is 0 for a ledger without withdrawals and the balance for a ledger of withdrawals only |
| SpendChart.Withdrawals | budget.py:114-116 | every entry with a negative amount is kept as many times as the ledger holds it, and no other entry is kept |
| SpendChart.WithdrawalsSingle | budget.py:115 | a single entry is kept exactly when its amount is negative |
| SpendChart.WithdrawalsConcat | budget.py:114-116 | filtering two ledgers joined is filtering each and joining the results in the same order, so the withdrawals keep ledger order |
| SpendChart.SpentIsWithdrawals | budget.py:114-116 | spending is the sum of the withdrawal entries alone: deposits do not count |
| SpendChart.Percentage | budget.py:121 | a non-negative multiple of ten `r` with `r * abs(total) <= 100 * abs(spent) < (r + 10) * abs(total)`, i.e. the percentage rounded down to ten |
| SpendChart.ChartPercentages | budget.py:118-121 | one percentage per category, each the `Percentage` of its spending in the total; `Percentages` applies `Percentage` to every spending figure in order |
| SpendChart.ChartPercentagesBounded | budget.py:113-121 | for the percentages computed from `SpentList` (the spending of each category, budget.py:110-117) and their total `SumInts` (the `sum` of budget.py:118): each percentage is a multiple of ten from 0 to 100; together they add up to at most 100; a category with no withdrawals gets 0 |
| SpendChart.Label | budget.py:124 | `f'{row:>3}'`: three columns with the row number right-aligned |
| SpendChart.Cell | budget.py:126-129 | every cell is three columns wide |
| SpendChart.CellsLength | budget.py:125-129 | a bar row's cells take three columns per category |
| SpendChart.CellAt | budget.py:125-129 | in `Cells`, the cells budget.py:125-129 emits for one row, category `i`'s cell sits at columns `3i` to `3i + 2` |
| SpendChart.BarRowCell | budget.py:123-130 | in the row labelled `r`, category `i`'s cell is `o  ` if and only if `r <= pct[i]`, otherwise three spaces |
| SpendChart.BarRowShape | budget.py:123-130 | `BarRow`, one row budget.py:124-130 emits, is the right-aligned label, `"| "`, three columns per category and a line break |
| SpendChart.BarLines | budget.py:123 | the first `k` bar rows are `k` lines |
| SpendChart.BarLinesAt | budget.py:123-130 | the chart has exactly eleven bar rows, and row `j` is the one labelled `100 - 10j` |
| SpendChart.Separator | budget.py:132 | four spaces, one dash, three dashes per category, a line break |
| SpendChart.NameCell | budget.py:137-140 | every name column block is three wide |
| SpendChart.NameCellsLength | budget.py:136-140 | a name row's blocks take three columns per category |
| SpendChart.NameCellAt | budget.py:136-140 | in `NameCells`, the blocks budget.py:136-140 emits for one row, name `i`'s block sits at columns `3i` to `3i + 2` |
| SpendChart.NameRowCell | budget.py:135-140 | in a name row, name `i`'s block follows the five leading spaces at column `5 + 3i` |
| SpendChart.NameRowShape | budget.py:134-142 | `NameRow`, one row budget.py:135-140 emits, is five spaces, then for each name its character at that row (or a space if the name is shorter) and two spaces |
| SpendChart.MaxLen | budget.py:134 | the length of the longest name: no name is longer and some name has that length |
| SpendChart.NameLines | budget.py:134 | the first `k` name lines are `k` lines |
| SpendChart.NameLinesAt | budget.py:134-142 | name line `j` is `NameLine(j)`: the name row for character position `j`, followed by a line break unless it is the last (budget.py:141-142) |
| SpendChart.NameLinesEnd | budget.py:141-142 | the name rows end with the last one, and it has no line break |
| SpendChart.NameRowEndsWithSpace | budget.py:140 | a name row ends in a space |
| SpendChart.ChartEndsWithLastNameRow | budget.py:141-144 | when some name is not empty, the chart ends with the last name row, with no newline after it |
| SpendChart.ChartEndsWithSeparator | budget.py:132-134 | when every name is empty, the chart ends with the separator line |
| SpendChart.Ledgers | budget.py:110-114 | one ledger per category, in order |
| SpendChart.CreateSpendChart | budget.py:104-144 | the output is `Chart` (the whole text of budget.py:104-144: title, eleven bar rows, separator, name rows) for the categories' names (`Names`, budget.py:112) and their percentages |
| SpendChart.ChartText | budget.py:118-144 | from the names and spending figures, the output is the title, the eleven bar rows, the separator and the name rows |
| SpendChart.NamesAndSpending | budget.py:110-117 | the first loop collects, in category order, every category's name (`Names`) and its spending (`SpentList`, one `Spent` per ledger) |
| SpendChart.PercentagesOf | budget.py:120-121 | the second loop computes `Percentages`: each category's `Percentage`, in order |
| SpendChart.SpentInLedger | budget.py:111-117 | the inner loop adds up exactly the negative amounts |
| SpendChart.BarsText | budget.py:123-130 | the row loop emits the eleven bar rows 100, 90, ..., 0 |
| SpendChart.BarRowText | budget.py:124-130 | the cell loop emits one bar row |
| SpendChart.NameRowsText | budget.py:134-142 | the name loop emits every name row, each followed by a line break except the last |
| SpendChart.NameRowText | budget.py:135-140 | the inner name loop emits one name row |

## Left out

- Floating point: amounts are exact cents, so float rounding in sums and in `spent / total_spent * 100` is not modelled. Python prints a float negative zero as `-0.00`; the model prints ` 0.00`.
- Python's format mini-language is modelled only for the fields the source uses: `:23`, `:7.2f` and `:>3`.
- Division by zero: with no withdrawal in any category the source divides by zero. `CreateSpendChart` requires the total spending to be non-zero.
- `max` of an empty sequence: with no categories the source fails in `max`. `CreateSpendChart` requires a non-empty category list.
- Budget.Category.Transfer: requires the destination to be a different category. A transfer to itself is not modelled, because the source does not address that case.
- Dynamic typing: ledger entries are a typed record rather than a dictionary, and amounts are integers.
- `names.append(tuple(category.name))` keeps each name as a string, since only its length and characters are used.
- `Category.__str__` is modelled as `ToString`.
