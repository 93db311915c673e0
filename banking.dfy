/** The transaction engine of the banking script: deposits, withdrawals and
    interest accrual, each appending one row to the "Ledger" sheet.
 */
module Banking {
  import opened LedgerSheet

  /** The errors the script throws once the sheets have been found. */
  datatype Error =
    | InvalidAmount
    | LimitExceeded(maxBalance: real)
    | InsufficientFunds(requested: real, available: real)

  datatype Result<T> = Ok(value: T) | Err(error: Error)

  /** The "Ledger" sheet together with the two Configuration cells the
      script reads: the rate per period (B3) and the maximum balance (B5). */
  class Ledger {
    /** rows[i] is sheet row i + 2; row 1 is the header. */
    var rows: seq<Row>
    var rate: real
    var maxBalance: real

    /** The row above the first transaction holds a numeric balance, and
        every later row has one of the shapes the script writes. */
    ghost predicate Valid()
      reads this
    {
      WellFormed(rows)
    }

    /** What `getLastRow()` reports: the header and every row below it. */
    function LastRow(): nat
      reads this
    {
      HeaderRows + |rows|
    }

    /** The value of column D in sheet row `sheetRow`. */
    function BalanceInRow(sheetRow: nat): real
      reads this
      requires Valid() && HeaderRows < sheetRow <= LastRow()
    {
      BalanceAt(rows, sheetRow - HeaderRows - 1, rate)
    }

    /** The balance in the last row. */
    function Balance(): real
      reads this
      requires Valid()
    {
      LastBalance(rows, rate)
    }

    /** The sheet as a reader sees it. */
    function Entries(): seq<Entry>
      reads this
      requires Valid()
    {
      Evaluate(rows, rate)
    }

    constructor (initial: seq<Row>, rate: real, maxBalance: real)
      requires WellFormed(initial)
      ensures Valid()
      ensures rows == initial && this.rate == rate && this.maxBalance == maxBalance
    {
      rows := initial;
      this.rate := rate;
      this.maxBalance := maxBalance;
    }

    /** The shared append: rejects a non-positive amount, otherwise writes
        the date, the type, the literal amount and the formula
        `=D{lastRow}{op}C{newRow}` into the row below the last one, and
        returns the balance read back from that new row. */
    method AddLedgerEntry(kind: Kind, amount: real, op: Operator, now: Timestamp) returns (r: Result<real>)
      requires Valid()
      requires (kind == Deposit && op == Plus) || (kind == Withdrawal && op == Minus)
      modifies this`rows
      ensures Valid()
      ensures amount <= 0.0 ==> r == Err(InvalidAmount) && rows == old(rows)
      ensures amount > 0.0 ==>
        rows == old(rows) + [Row(now, kind, AmountValue(amount), PrevBalanceWith(op))] &&
        LastRow() == old(LastRow()) + 1 &&
        Entries() == old(Entries()) + [Entry(now, kind, amount, Apply(op, old(Balance()), amount))] &&
        r == Ok(Balance()) && Balance() == Apply(op, old(Balance()), amount)
      ensures kind == Deposit && old(GuardsHeld(rows, rate, maxBalance)) && old(Balance()) + amount <= maxBalance
        ==> GuardsHeld(rows, rate, maxBalance)
      ensures kind == Withdrawal && old(GuardsHeld(rows, rate, maxBalance)) && amount <= old(Balance())
        ==> GuardsHeld(rows, rate, maxBalance)
    {
      if amount <= 0.0 {
        return Err(InvalidAmount);
      }
      var lastRow := LastRow();
      var newRow := lastRow + 1;
      var row := Row(now, kind, AmountValue(amount), PrevBalanceWith(op));
      AppendRow(rows, row, rate);
      if GuardsHeld(rows, rate, maxBalance) &&
         (kind == Deposit ==> Balance() + amount <= maxBalance) &&
         (kind == Withdrawal ==> amount <= Balance())
      {
        GuardsHeldAppend(rows, row, rate, maxBalance);
      }
      rows := rows + [row];
      r := Ok(BalanceInRow(newRow));
    }

    /** A deposit: fails when the current balance plus the amount would
        exceed the maximum balance (reaching it exactly is allowed), and
        otherwise hands over to the shared append, which still rejects a
        non-positive amount. */
    method AddDepositRow(amount: real, now: Timestamp) returns (r: Result<real>)
      requires Valid()
      modifies this`rows
      ensures Valid()
      ensures old(Balance()) + amount > maxBalance ==>
        r == Err(LimitExceeded(maxBalance)) && rows == old(rows)
      ensures old(Balance()) + amount <= maxBalance && amount <= 0.0 ==>
        r == Err(InvalidAmount) && rows == old(rows)
      ensures old(Balance()) + amount <= maxBalance && amount > 0.0 ==>
        rows == old(rows) + [Row(now, Deposit, AmountValue(amount), PrevBalanceWith(Plus))] &&
        Entries() == old(Entries()) + [Entry(now, Deposit, amount, old(Balance()) + amount)] &&
        r == Ok(Balance()) && Balance() == old(Balance()) + amount
      ensures r.Ok? ==> r.value <= maxBalance
      ensures old(GuardsHeld(rows, rate, maxBalance)) ==> GuardsHeld(rows, rate, maxBalance)
    {
      var lastRow := LastRow();
      var currentBalance := BalanceInRow(lastRow);
      if currentBalance + amount > maxBalance {
        return Err(LimitExceeded(maxBalance));
      }
      r := AddLedgerEntry(Deposit, amount, Plus, now);
    }

    /** A withdrawal: fails when the amount exceeds the current balance
        (withdrawing all of it is allowed), and otherwise hands over to the
        shared append. */
    method AddWithdrawalRow(amount: real, now: Timestamp) returns (r: Result<real>)
      requires Valid()
      modifies this`rows
      ensures Valid()
      ensures amount > old(Balance()) ==>
        r == Err(InsufficientFunds(amount, old(Balance()))) && rows == old(rows)
      ensures amount <= old(Balance()) && amount <= 0.0 ==>
        r == Err(InvalidAmount) && rows == old(rows)
      ensures amount <= old(Balance()) && amount > 0.0 ==>
        rows == old(rows) + [Row(now, Withdrawal, AmountValue(amount), PrevBalanceWith(Minus))] &&
        Entries() == old(Entries()) + [Entry(now, Withdrawal, amount, old(Balance()) - amount)] &&
        r == Ok(Balance()) && Balance() == old(Balance()) - amount
      ensures r.Ok? && old(Balance()) >= 0.0 ==> r.value >= 0.0
      ensures old(GuardsHeld(rows, rate, maxBalance)) ==> GuardsHeld(rows, rate, maxBalance)
    {
      var lastRow := LastRow();
      var currentBalance := BalanceInRow(lastRow);
      if amount > currentBalance {
        return Err(InsufficientFunds(amount, currentBalance));
      }
      r := AddLedgerEntry(Withdrawal, amount, Minus, now);
    }

    /** Interest accrual: writes `=D{lastRow}*Configuration!$B$3` as the
        amount and `=D{lastRow}+C{newRow}` as the balance of a new row. The
        rate is not validated and the maximum balance is not consulted. */
    method AddInterestRow(now: Timestamp)
      requires Valid()
      modifies this`rows
      ensures Valid()
      ensures rows == old(rows) + [InterestRow(now)]
      ensures LastRow() == old(LastRow()) + 1
      ensures Entries() == old(Entries()) + [Entry(now, Interest, InterestOn(old(Balance()), rate), old(Balance()) + InterestOn(old(Balance()), rate))]
      ensures Balance() == old(Balance()) + InterestOn(old(Balance()), rate)
      ensures old(GuardsHeld(rows, rate, maxBalance)) ==> GuardsHeld(rows, rate, maxBalance)
    {
      var row := InterestRow(now);
      AppendInterest(rows, now, rate);
      if GuardsHeld(rows, rate, maxBalance) {
        GuardsHeldAppend(rows, row, rate, maxBalance);
      }
      rows := rows + [row];
    }
  }

  /** A deposit and withdrawal session on a fresh ledger, using only the
      contracts above. */
  method ExampleSession()
  {
    var seed := Row(0, Deposit, AmountValue(0.0), BalanceValue(0.0));
    var ledger := new Ledger([seed], 0.01, 100.0);
    var r := ledger.AddDepositRow(50.0, 1);
    assert r == Ok(50.0);
    r := ledger.AddDepositRow(20.0, 2);
    assert r == Ok(70.0);
    r := ledger.AddWithdrawalRow(70.01, 3);
    assert r == Err(InsufficientFunds(70.01, 70.0));
    r := ledger.AddWithdrawalRow(30.0, 4);
    assert r == Ok(40.0);
    assert |ledger.rows| == 4;
  }

  /** At the cap: a deposit that reaches it passes, one past it fails, and
      interest then lifts the balance over it. */
  method CapSession()
  {
    var seed := Row(0, Deposit, AmountValue(40.0), BalanceValue(40.0));
    var ledger := new Ledger([seed], 0.01, 100.0);
    var r := ledger.AddDepositRow(60.0, 1);
    assert r == Ok(100.0);
    r := ledger.AddDepositRow(0.01, 2);
    assert r == Err(LimitExceeded(100.0));
    r := ledger.AddDepositRow(-5.0, 3);
    assert r == Err(InvalidAmount);
    ledger.AddInterestRow(4);
    assert ledger.Balance() == 101.0 > ledger.maxBalance;
  }
}
