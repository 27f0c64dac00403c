/** A budget category: a name and an append-only ledger of signed
    entries (positive for deposits, negative for withdrawals), with the
    balance, the funds check, transfers between categories and the
    fixed-width text report. Amounts are whole cents. */
module Budget {
  import opened Text

  datatype Option<T> = None | Some(value: T)

  /** One ledger entry; the source stores it as
      `{"amount": amount, "description": description}`. */
  datatype Entry = Entry(amount: int, description: string)

  /** The sum of the amounts of a ledger, accumulated in ledger order. */
  function Sum(ledger: seq<Entry>): int
  {
    if ledger == [] then 0 else Sum(ledger[..|ledger| - 1]) + ledger[|ledger| - 1].amount
  }

  lemma {:induction false} SumConcat(a: seq<Entry>, b: seq<Entry>)
    ensures Sum(a + b) == Sum(a) + Sum(b)
    decreases |b|
  {
    if b != [] {
      assert (a + b)[..|a + b| - 1] == a + b[..|b| - 1];
      assert (a + b)[|a + b| - 1] == b[|b| - 1];
      SumConcat(a, b[..|b| - 1]);
    } else {
      assert a + b == a;
    }
  }

  // ---------------------------------------------------------------
  // Rendering amounts: `f'{amount:7.2f}'` on a value held in cents.
  // ---------------------------------------------------------------

  function Abs(x: int): nat { if x < 0 then -x else x }

  /** The amount with exactly two decimals: an optional minus sign, the
      whole units (at least one digit), a point and two digits of cents. */
  function Fixed2(cents: int): (r: string)
    ensures |r| == (if cents < 0 then 1 else 0) + |NatToString(Abs(cents) / 100)| + 3
    ensures r[0] == '-' <==> cents < 0
    ensures r[0] != ' '
  {
    (if cents < 0 then "-" else "") + Unsigned2(Abs(cents))
  }

  /** Whole units, a point, and the cents as exactly two digits. */
  function Unsigned2(n: nat): (r: string)
    ensures |r| == |NatToString(n / 100)| + 3
    ensures IsDigit(r[0])
  {
    NatToString(n / 100) + "." + TwoDigits(n % 100)
  }

  function TwoDigits(c: nat): (r: string)
    requires c < 100
    ensures |r| == 2 && AllDigits(r) && DigitsValue(r) == c
  {
    var r := [DigitChar(c / 10), DigitChar(c % 10)];
    assert r[..1] == [DigitChar(c / 10)];
    assert [DigitChar(c / 10)][..0] == [];
    assert DigitsValue(r[..1]) == c / 10;
    assert DigitsValue(r) == (c / 10) * 10 + c % 10;
    r
  }

  /** Reads a rendering produced by `Fixed2` back into cents. */
  function ParseFixed2(s: string): Option<int>
  {
    if |s| >= 1 && s[0] == '-' then
      match ParseUnsigned(s[1..])
      case Some(v) => Some(-v)
      case None => None
    else ParseUnsigned(s)
  }

  function ParseUnsigned(s: string): Option<int>
  {
    if |s| >= 4 && s[|s| - 3] == '.' && AllDigits(s[..|s| - 3]) && AllDigits(s[|s| - 2..])
    then Some(DigitsValue(s[..|s| - 3]) * 100 + DigitsValue(s[|s| - 2..]))
    else None
  }

  lemma {:induction false} Unsigned2RoundTrip(n: nat)
    ensures ParseUnsigned(Unsigned2(n)) == Some(n)
  {
    var units := NatToString(n / 100);
    var u := Unsigned2(n);
    assert u[..|u| - 3] == units;
    assert u[|u| - 2..] == TwoDigits(n % 100);
    NatToStringRoundTrip(n / 100);
  }

  lemma {:induction false} Fixed2RoundTrip(cents: int)
    ensures ParseFixed2(Fixed2(cents)) == Some(cents)
  {
    var u := Unsigned2(Abs(cents));
    Unsigned2RoundTrip(Abs(cents));
    if cents < 0 {
      assert Fixed2(cents) == "-" + u;
      assert ("-" + u)[1..] == u;
    } else {
      assert Fixed2(cents) == u;
    }
  }

  /** `f'{amount:7.2f}'`: the two-decimal rendering right-aligned in a
      field of width 7; a wider rendering overflows the field. */
  function FormatAmount(cents: int): (r: string)
    ensures |r| == if |Fixed2(cents)| >= 7 then |Fixed2(cents)| else 7
    ensures r[|r| - |Fixed2(cents)|..] == Fixed2(cents)
    ensures forall i :: 0 <= i < |r| - |Fixed2(cents)| ==> r[i] == ' '
  {
    PadLeft(Fixed2(cents), 7)
  }

  /** The field is seven characters wide exactly for amounts from -999.99
      to 9999.99; any other amount overflows it. */
  lemma FormatAmountWidth(cents: int)
    ensures |FormatAmount(cents)| == 7 <==> -100000 < cents < 1000000
  {
    if cents < 0 {
      NatToStringWidth(Abs(cents) / 100, 3);
    } else {
      NatToStringWidth(cents / 100, 4);
    }
  }

  /** Reads an amount field back: leading padding, then a two-decimal number. */
  function ParseAmount(s: string): Option<int>
  {
    ParseFixed2(TrimLeft(s))
  }

  /** Every rendered amount reads back as the amount it was made from. */
  lemma {:induction false} FormatAmountRoundTrip(cents: int)
    ensures ParseAmount(FormatAmount(cents)) == Some(cents)
  {
    TrimLeftPadLeft(Fixed2(cents), 7);
    Fixed2RoundTrip(cents);
  }

  // ---------------------------------------------------------------
  // The category report.
  // ---------------------------------------------------------------

  /** One report line for an entry: the first 23 characters of the
      description padded to 23, the amount field, a line break. */
  function EntryLine(e: Entry): (r: string)
  {
    PadRight(Take(e.description, 23), 23) + FormatAmount(e.amount) + "\n"
  }

  lemma EntryLineShape(e: Entry)
    ensures var r := EntryLine(e);
      var m := if |e.description| < 23 then |e.description| else 23;
      && |r| == 23 + |FormatAmount(e.amount)| + 1
      && r[..m] == e.description[..m]
      && (forall i :: m <= i < 23 ==> r[i] == ' ')
      && r[23..|r| - 1] == FormatAmount(e.amount)
      && ParseAmount(r[23..|r| - 1]) == Some(e.amount)
      && r[|r| - 1] == '\n'
  {
    var t := Take(e.description, 23);
    var d := PadRight(t, 23);
    var f := FormatAmount(e.amount);
    SliceThree(d, f, "\n");
    PrefixOfPrefix(EntryLine(e), d, |t|);
    FormatAmountRoundTrip(e.amount);
  }

  /** The ledger part of the report: one `EntryLine` per entry, in ledger order. */
  function LedgerText(ledger: seq<Entry>): string
  {
    if ledger == [] then "" else LedgerText(ledger[..|ledger| - 1]) + EntryLine(ledger[|ledger| - 1])
  }

  lemma {:induction false} LedgerTextLines(ledger: seq<Entry>)
    ensures LedgerText(ledger) == Concat(seq(|ledger|, k requires 0 <= k < |ledger| => EntryLine(ledger[k])))
  {
    var lines := seq(|ledger|, k requires 0 <= k < |ledger| => EntryLine(ledger[k]));
    if ledger != [] {
      var front := ledger[..|ledger| - 1];
      LedgerTextLines(front);
      assert lines[..|lines| - 1] == seq(|front|, k requires 0 <= k < |front| => EntryLine(front[k]));
    }
  }

  /** The closing line: `Total:` followed by the balance field. */
  function TotalLine(balance: int): (r: string)
    ensures |r| == 6 + |FormatAmount(balance)| && |r| >= 13
    ensures r[..6] == "Total:" && r[6..] == FormatAmount(balance)
    ensures ParseAmount(r[6..]) == Some(balance)
  {
    FormatAmountRoundTrip(balance);
    var r := "Total:" + FormatAmount(balance);
    assert r[6..] == FormatAmount(balance);
    r
  }

  class Category {
    const name: string
    var ledger: seq<Entry>

    constructor (name: string)
      ensures this.name == name && ledger == []
    {
      this.name := name;
      ledger := [];
    }

    /** The sum the source recomputes each time it needs the balance. */
    ghost function Balance(): int
      reads this
    {
      Sum(ledger)
    }

    method Deposit(amount: int, description: string := "")
      modifies this`ledger
      ensures ledger == old(ledger) + [Entry(amount, description)]
      ensures Balance() == old(Balance()) + amount
    {
      ledger := ledger + [Entry(amount, description)];
    }

    method Withdraw(amount: int, description: string := "") returns (ok: bool)
      modifies this`ledger
      ensures ok <==> amount <= old(Balance())
      ensures ledger == if ok then old(ledger) + [Entry(-amount, description)] else old(ledger)
      ensures Balance() == if ok then old(Balance()) - amount else old(Balance())
      ensures ok ==> Balance() >= 0
    {
      ok := CheckFunds(amount);
      if ok {
        ledger := ledger + [Entry(-amount, description)];
      }
    }

    method GetBalance() returns (balance: int)
      ensures balance == Sum(ledger)
    {
      balance := 0;
      var i := 0;
      while i < |ledger|
        invariant 0 <= i <= |ledger|
        invariant balance == Sum(ledger[..i])
      {
        assert ledger[..i + 1][..i] == ledger[..i];
        balance := balance + ledger[i].amount;
        i := i + 1;
      }
      assert ledger[..i] == ledger;
    }

    method Transfer(amount: int, destination: Category) returns (ok: bool)
      requires destination != this
      modifies this`ledger, destination`ledger
      ensures ok <==> amount <= old(Balance())
      ensures ledger == if ok then old(ledger) + [Entry(-amount, "Transfer to " + destination.name)]
                        else old(ledger)
      ensures destination.ledger == if ok then old(destination.ledger) + [Entry(amount, "Transfer from " + name)]
                                    else old(destination.ledger)
      ensures ok ==> Balance() == old(Balance()) - amount
      ensures ok ==> destination.Balance() == old(destination.Balance()) + amount
      ensures Balance() + destination.Balance() == old(Balance()) + old(destination.Balance())
    {
      ok := Withdraw(amount, "Transfer to " + destination.name);
      if ok {
        destination.Deposit(amount, "Transfer from " + name);
      }
    }

    method CheckFunds(amount: int) returns (ok: bool)
      ensures ok <==> amount <= Sum(ledger)
    {
      var balance := GetBalance();
      ok := balance >= amount;
    }

    /** A title of (nearly) 30 characters: the name centred between two
        equal runs of asterisks, `(30 - len(name)) // 2` long each. */
    function Title(): (r: string)
      ensures var side := if |name| >= 30 then 0 else (30 - |name|) / 2;
        && |r| == side + |name| + side
        && (forall i :: 0 <= i < side ==> r[i] == '*')
        && (forall i :: side + |name| <= i < |r| ==> r[i] == '*')
        && r[side..side + |name|] == name
      ensures |name| <= 30 ==> |r| == if |name| % 2 == 0 then 30 else 29
    {
      var space := (30 - |name|) / 2;
      Repeat('*', space) + name + Repeat('*', space)
    }

    method LedgerStr() returns (output: string)
      ensures output == LedgerText(ledger)
    {
      output := "";
      var i := 0;
      while i < |ledger|
        invariant 0 <= i <= |ledger|
        invariant output == LedgerText(ledger[..i])
      {
        assert ledger[..i + 1][..i] == ledger[..i];
        output := output + EntryLine(ledger[i]);
        i := i + 1;
      }
      assert ledger[..i] == ledger;
    }

    method Total() returns (output: string)
      ensures output == TotalLine(Sum(ledger))
    {
      var balance := GetBalance();
      output := TotalLine(balance);
    }

    /** The whole report: title line, ledger lines, total line. */
    method ToString() returns (output: string)
      ensures output == Title() + "\n" + LedgerText(ledger) + TotalLine(Sum(ledger))
    {
      output := Title() + "\n";
      var lines := LedgerStr();
      output := output + lines;
      var total := Total();
      output := output + total;
    }
  }

  /** Depositing an amount and then withdrawing it again: the withdrawal
      goes through exactly when the balance was not negative before, and
      then the balance is back where it was and the ledger has gained the
      two entries `+amount` and `-amount`. */
  method DepositThenWithdraw(c: Category, amount: int, description: string) returns (ok: bool)
    modifies c`ledger
    ensures ok <==> old(c.Balance()) >= 0
    ensures c.ledger == old(c.ledger) + [Entry(amount, description)]
                        + (if ok then [Entry(-amount, description)] else [])
    ensures ok ==> c.Balance() == old(c.Balance())
  {
    c.Deposit(amount, description);
    ok := c.Withdraw(amount, description);
  }
}
