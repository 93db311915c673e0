/** The "Ledger" sheet as the banking script leaves it: one header row, then
    one row per transaction with the columns Date, Type, Amount and Balance.
    The script writes some cells as literal values and others as sheet
    formulas that refer to the row above and to the interest rate in
    Configuration!B3; the values a reader sees are the formulas evaluated
    against the sheet and the rate as they are now.
 */
module LedgerSheet {

  /** Row 1 of the sheet holds the column headers. */
  const HeaderRows: nat := 1

  /** The value written into the Date column; the clock is not modelled. */
  type Timestamp = int

  /** The strings the script writes into the Type column. */
  datatype Kind = Deposit | Withdrawal | Interest

  /** The operator spliced into a balance formula. */
  datatype Operator = Plus | Minus

  /** Column C: a literal amount, or `=D{row above}*Configuration!$B$3`. */
  datatype AmountCell = AmountValue(amount: real) | PrevBalanceTimesRate

  /** Column D: a literal balance, or `=D{row above}{op}C{this row}`. */
  datatype BalanceCell = BalanceValue(balance: real) | PrevBalanceWith(op: Operator)

  datatype Row = Row(date: Timestamp, kind: Kind, amountCell: AmountCell, balanceCell: BalanceCell)

  /** A row as a reader of the sheet sees it, with its formulas evaluated. */
  datatype Entry = Entry(date: Timestamp, kind: Kind, amount: real, balance: real)

  function Apply(op: Operator, prev: real, amount: real): real
  {
    match op
    case Plus => prev + amount
    case Minus => prev - amount
  }

  /** The interest for one period: the balance times the rate per period. */
  function InterestOn(balance: real, rate: real): real
  {
    balance * rate
  }

  /** The change a row of this kind makes to the balance. */
  function Signed(kind: Kind, amount: real): real
  {
    if kind == Withdrawal then -amount else amount
  }

  /** The first row below the header holds numbers, not formulas, so that
      every formula of a later row refers to a numeric cell. */
  predicate Seeded(rows: seq<Row>)
  {
    |rows| > 0 && rows[0].amountCell.AmountValue? && rows[0].balanceCell.BalanceValue?
  }

  /** The shape of the three kinds of row the script appends. */
  predicate CoreRow(r: Row)
  {
    match r.kind
    case Deposit =>
      r.amountCell.AmountValue? && r.amountCell.amount > 0.0 && r.balanceCell == PrevBalanceWith(Plus)
    case Withdrawal =>
      r.amountCell.AmountValue? && r.amountCell.amount > 0.0 && r.balanceCell == PrevBalanceWith(Minus)
    case Interest =>
      r.amountCell == PrevBalanceTimesRate && r.balanceCell == PrevBalanceWith(Plus)
  }

  /** A seed row followed by rows the script appended. */
  predicate WellFormed(rows: seq<Row>)
  {
    Seeded(rows) && forall i :: 1 <= i < |rows| ==> CoreRow(rows[i])
  }

  /** The value of column C of row `i` under interest rate `rate`. */
  function AmountAt(rows: seq<Row>, i: nat, rate: real): real
    requires Seeded(rows) && i < |rows|
    decreases i, 0
  {
    match rows[i].amountCell
    case AmountValue(v) => v
    case PrevBalanceTimesRate => InterestOn(BalanceAt(rows, i - 1, rate), rate)
  }

  /** The value of column D of row `i` under interest rate `rate`. */
  function BalanceAt(rows: seq<Row>, i: nat, rate: real): real
    requires Seeded(rows) && i < |rows|
    decreases i, 1
  {
    match rows[i].balanceCell
    case BalanceValue(v) => v
    case PrevBalanceWith(op) => Apply(op, BalanceAt(rows, i - 1, rate), AmountAt(rows, i, rate))
  }

  function EntryAt(rows: seq<Row>, i: nat, rate: real): Entry
    requires Seeded(rows) && i < |rows|
  {
    Entry(rows[i].date, rows[i].kind, AmountAt(rows, i, rate), BalanceAt(rows, i, rate))
  }

  /** The whole sheet as a reader sees it. */
  function Evaluate(rows: seq<Row>, rate: real): seq<Entry>
    requires Seeded(rows)
  {
    seq(|rows|, i requires 0 <= i < |rows| => EntryAt(rows, i, rate))
  }

  /** Sum of the signed amounts of rows 1 to `i`. */
  function NetChange(rows: seq<Row>, i: nat, rate: real): real
    requires Seeded(rows) && i < |rows|
  {
    if i == 0 then 0.0 else NetChange(rows, i - 1, rate) + Signed(rows[i].kind, AmountAt(rows, i, rate))
  }

  /** The balance in the last row. */
  function LastBalance(rows: seq<Row>, rate: real): real
    requires Seeded(rows)
  {
    BalanceAt(rows, |rows| - 1, rate)
  }

  /** The value column C of `r` has when the balance above it is `prev`. */
  function AmountOf(r: Row, prev: real, rate: real): real
  {
    match r.amountCell
    case AmountValue(v) => v
    case PrevBalanceTimesRate => InterestOn(prev, rate)
  }

  /** The checks that admitted each row still hold of the evaluated sheet:
      a deposit row's balance is within the cap, and a withdrawal row's
      amount is covered by the balance above it. */
  ghost predicate GuardsHeld(rows: seq<Row>, rate: real, maxBalance: real)
  {
    Seeded(rows) &&
    forall i :: 1 <= i < |rows| ==>
      (rows[i].kind == Deposit ==> BalanceAt(rows, i, rate) <= maxBalance) &&
      (rows[i].kind == Withdrawal ==> AmountAt(rows, i, rate) <= BalanceAt(rows, i - 1, rate))
  }

  /** Every formula refers only to its own row and the row above, so rows
      added below never change the value of an existing row. */
  lemma {:induction false} PrefixEvaluation(pre: seq<Row>, rows: seq<Row>, i: nat, rate: real)
    requires Seeded(pre) && pre <= rows && i < |pre|
    ensures Seeded(rows)
    ensures AmountAt(rows, i, rate) == AmountAt(pre, i, rate)
    ensures BalanceAt(rows, i, rate) == BalanceAt(pre, i, rate)
  {
    assert rows[0] == pre[0];
    assert rows[i] == pre[i];
    if i > 0 {
      PrefixEvaluation(pre, rows, i - 1, rate);
    }
  }

  /** Appending a row leaves the evaluated sheet as it was and adds one entry. */
  lemma EvaluateAppend(rows: seq<Row>, r: Row, rate: real)
    requires Seeded(rows)
    ensures Seeded(rows + [r])
    ensures Evaluate(rows + [r], rate) == Evaluate(rows, rate) + [EntryAt(rows + [r], |rows|, rate)]
  {
    var ext := rows + [r];
    assert rows <= ext;
    forall i | 0 <= i < |rows|
      ensures Evaluate(ext, rate)[i] == Evaluate(rows, rate)[i]
    {
      PrefixEvaluation(rows, ext, i, rate);
    }
  }

  /** One step of the running balance, between two adjacent entries. */
  predicate Step(prev: Entry, e: Entry, rate: real)
  {
    e.balance == prev.balance + Signed(e.kind, e.amount) &&
    (e.kind == Interest ==> e.amount == InterestOn(prev.balance, rate)) &&
    (e.kind != Interest ==> e.amount > 0.0)
  }

  /** The running-balance invariant: each row after the seed moves the
      balance above it by its signed amount; an interest row's amount is the
      balance above it times the rate; other amounts are positive. */
  lemma RunningBalance(rows: seq<Row>, rate: real)
    requires WellFormed(rows)
    ensures var es := Evaluate(rows, rate);
      forall i :: 1 <= i < |es| ==> Step(es[i - 1], es[i], rate)
  {
    var es := Evaluate(rows, rate);
    forall i | 1 <= i < |es|
      ensures Step(es[i - 1], es[i], rate)
    {
      assert CoreRow(rows[i]);
      assert es[i] == EntryAt(rows, i, rate) && es[i - 1] == EntryAt(rows, i - 1, rate);
    }
  }

  /** Every balance is the seed balance plus the signed amounts since. */
  lemma {:induction false} BalanceIsSeedPlusNetChange(rows: seq<Row>, i: nat, rate: real)
    requires WellFormed(rows) && i < |rows|
    ensures BalanceAt(rows, i, rate) == rows[0].balanceCell.balance + NetChange(rows, i, rate)
  {
    if i > 0 {
      BalanceIsSeedPlusNetChange(rows, i - 1, rate);
      assert CoreRow(rows[i]);
    }
  }

  /** Appending a row of one of the script's shapes keeps the sheet well
      formed, keeps every existing entry, and adds one entry whose balance is
      the last balance moved by the row's signed amount. */
  lemma AppendRow(rows: seq<Row>, r: Row, rate: real)
    requires WellFormed(rows) && CoreRow(r)
    ensures WellFormed(rows + [r])
    ensures var prev := LastBalance(rows, rate);
      var amount := AmountOf(r, prev, rate);
      LastBalance(rows + [r], rate) == prev + Signed(r.kind, amount) &&
      Evaluate(rows + [r], rate) == Evaluate(rows, rate) + [Entry(r.date, r.kind, amount, prev + Signed(r.kind, amount))]
  {
    var ext := rows + [r];
    assert rows <= ext;
    EvaluateAppend(rows, r, rate);
    PrefixEvaluation(rows, ext, |rows| - 1, rate);
    assert ext[|rows|] == r;
  }

  /** The row the interest accrual writes. */
  function InterestRow(now: Timestamp): Row
  {
    Row(now, Interest, PrevBalanceTimesRate, PrevBalanceWith(Plus))
  }

  /** The interest row: its amount is the last balance times the rate, and
      the new balance is the last balance plus that amount. */
  lemma AppendInterest(rows: seq<Row>, now: Timestamp, rate: real)
    requires WellFormed(rows)
    ensures WellFormed(rows + [InterestRow(now)])
    ensures LastBalance(rows + [InterestRow(now)], rate) == LastBalance(rows, rate) + InterestOn(LastBalance(rows, rate), rate)
    ensures Evaluate(rows + [InterestRow(now)], rate) ==
      Evaluate(rows, rate) + [Entry(now, Interest, InterestOn(LastBalance(rows, rate), rate), LastBalance(rows, rate) + InterestOn(LastBalance(rows, rate), rate))]
  {
    AppendRow(rows, InterestRow(now), rate);
  }

  /** Interest accrual does not consult the maximum balance: from a balance
      at a positive cap, any positive rate takes the balance above it. */
  lemma InterestIgnoresCap(rows: seq<Row>, now: Timestamp, rate: real, maxBalance: real)
    requires WellFormed(rows) && LastBalance(rows, rate) == maxBalance && maxBalance > 0.0 && rate > 0.0
    ensures LastBalance(rows + [InterestRow(now)], rate) > maxBalance
  {
    AppendInterest(rows, now, rate);
    assert InterestOn(maxBalance, rate) > 0.0;
  }

  /** Appending a row whose own check passed keeps every earlier check. */
  lemma GuardsHeldAppend(rows: seq<Row>, r: Row, rate: real, maxBalance: real)
    requires WellFormed(rows) && CoreRow(r) && GuardsHeld(rows, rate, maxBalance)
    requires r.kind == Deposit ==> LastBalance(rows + [r], rate) <= maxBalance
    requires r.kind == Withdrawal ==> AmountOf(r, LastBalance(rows, rate), rate) <= LastBalance(rows, rate)
    ensures GuardsHeld(rows + [r], rate, maxBalance)
  {
    var ext := rows + [r];
    assert rows <= ext;
    forall i | 1 <= i < |ext|
      ensures ext[i].kind == Deposit ==> BalanceAt(ext, i, rate) <= maxBalance
      ensures ext[i].kind == Withdrawal ==> AmountAt(ext, i, rate) <= BalanceAt(ext, i - 1, rate)
    {
      PrefixEvaluation(rows, ext, i - 1, rate);
      if i < |rows| {
        PrefixEvaluation(rows, ext, i, rate);
      } else {
        assert ext[i] == r;
      }
    }
  }

  /** Keeps the nonlinear step `balance * rate >= 0` apart for BalancesNonNegative. */
  lemma InterestNonNegative(balance: real, rate: real)
    requires balance >= 0.0 && rate >= 0.0
    ensures InterestOn(balance, rate) >= 0.0
  {
  }

  /** With a non-negative seed balance and rate, a sheet whose deposits and
      withdrawals all passed their checks never shows a negative balance. */
  lemma {:induction false} BalancesNonNegative(rows: seq<Row>, i: nat, rate: real, maxBalance: real)
    requires WellFormed(rows) && GuardsHeld(rows, rate, maxBalance) && i < |rows|
    requires rows[0].balanceCell.balance >= 0.0 && rate >= 0.0
    ensures BalanceAt(rows, i, rate) >= 0.0
  {
    if i > 0 {
      BalancesNonNegative(rows, i - 1, rate, maxBalance);
      assert CoreRow(rows[i]);
      if rows[i].kind == Interest {
        InterestNonNegative(BalanceAt(rows, i - 1, rate), rate);
      }
    }
  }

  /** The amount formula reads the rate when the sheet is evaluated, not when
      the row was written: editing Configuration!B3 re-values past interest
      rows, and lowering it can make a withdrawal that passed its check
      overdraw the balance. */
  lemma RateEditRevaluesHistory()
    ensures var rows := [Row(0, Deposit, AmountValue(100.0), BalanceValue(100.0)),
                         Row(1, Interest, PrevBalanceTimesRate, PrevBalanceWith(Plus)),
                         Row(2, Withdrawal, AmountValue(102.0), PrevBalanceWith(Minus))];
      WellFormed(rows) &&
      AmountAt(rows, 1, 0.02) == 2.0 && AmountAt(rows, 1, 0.01) == 1.0 &&
      GuardsHeld(rows, 0.02, 1000.0) && !GuardsHeld(rows, 0.01, 1000.0) &&
      BalanceAt(rows, 2, 0.01) < 0.0
  {
    var rows := [Row(0, Deposit, AmountValue(100.0), BalanceValue(100.0)),
                 Row(1, Interest, PrevBalanceTimesRate, PrevBalanceWith(Plus)),
                 Row(2, Withdrawal, AmountValue(102.0), PrevBalanceWith(Minus))];
    assert BalanceAt(rows, 1, 0.02) == 102.0;
    assert BalanceAt(rows, 1, 0.01) == 101.0;
    assert AmountAt(rows, 2, 0.01) > BalanceAt(rows, 1, 0.01);
  }
}
