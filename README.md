# piggyBank ledger, modelled in Dafny

piggyBank keeps a personal savings balance in a Google spreadsheet. The
"Ledger" sheet has one header row (Date, Type, Amount, Balance) and one row
per transaction below it. Three script functions each append one row:

- `addDepositRow(amount)` refuses a deposit that would take the balance above
  the maximum balance in `Configuration!B5`, then hands over to the shared
  helper;
- `addWithdrawalRow(amount)` refuses a withdrawal larger than the current
  balance, then hands over to the shared helper;
- `_addLedgerEntry(type, amount, operator)` refuses a non-positive amount,
  writes the date, the type, the literal amount and the balance formula
  `=D{lastRow}{operator}C{newRow}` into row `lastRow + 1`, and returns the
  balance read back from that new row;
- `addInterestRow()` writes the amount formula `=D{lastRow}*Configuration!$B$3`
  and the balance formula `=D{lastRow}+C{newRow}`. It checks neither the
  rate nor the cap.

The model has two modules.

- `LedgerSheet` (`ledger_sheet.dfy`) is the sheet itself. A `Row` holds the
  cells as the script writes them: a literal amount or the interest formula,
  and a literal balance or a balance formula. `AmountAt` and `BalanceAt`
  evaluate those cells the way the spreadsheet does, using the rate that is
  in the Configuration sheet at the time. `Evaluate` gives the whole sheet
  as a reader sees it. The lemmas prove these properties:
  - appending never changes an existing row;
  - every row moves the balance above it by its signed amount;
  - every balance is the seed balance plus the signed amounts since;
  - the deposit cap and the funds check stay true of the rows they admitted;
  - balances stay non-negative when the seed balance and the rate are
    non-negative and every withdrawal is covered by the balance above it;
  - interest can go past the cap;
  - editing the rate re-values past interest rows.
- `Banking` (`banking.dfy`) is the transaction engine. The class `Ledger`
  holds the rows (`rows[i]` is sheet row `i + 2`), the rate per period
  (`Configuration!B3`) and the maximum balance (`Configuration!B5`). It has
  one method per script function. Each method's postcondition gives the
  rows after the call and the evaluated sheet after the call, both in terms
  of the rows before. It also gives the error or the returned balance. Two
  client methods, `ExampleSession` and `CapSession`, replay example
  sessions using only those contracts.

The model follows the script as written, including where its behaviour may
surprise:

- No balance is rounded. The code stores exact formula results. Only
  `getDisplayValue` formats the result for display.
- `addDepositRow` checks the cap before the helper checks the amount. So a
  non-positive deposit is reported as `LimitExceeded` when the current
  balance plus that amount is over the cap.
- `addWithdrawalRow` checks for sufficient funds before the amount. So a
  non-positive withdrawal larger than a negative balance is reported as
  `InsufficientFunds`.
- `addInterestRow` does not check the rate and does not check that a
  numeric balance exists above the new row. The interest amount is a formula
  that reads the configured rate whenever the sheet is recalculated. It is
  not a value fixed when the row is written.

## Model

| member | source | states |
|---|---|---|
| `Banking.Ledger.AddLedgerEntry` | banking.js:51-81 | A non-positive amount gives `InvalidAmount` and leaves the rows as they were. Otherwise exactly one row (date, type, literal amount, balance formula with the given operator) is appended at sheet row `lastRow + 1`. Every earlier entry keeps its value. The result is the balance read back from the new row, which is the previous balance plus or minus the amount. |
| `Banking.Ledger.AddDepositRow` | banking.js:88-110 | If the current balance plus the amount is over the cap, the result is `LimitExceeded(maxBalance)` and nothing is appended. Reaching the cap exactly is allowed. Otherwise a non-positive amount gives `InvalidAmount`, and a positive one appends one Deposit row whose balance is the previous balance plus the amount. A successful result is the stored balance and is at most the cap. Earlier checks stay true. |
| `Banking.Ledger.AddWithdrawalRow` | banking.js:117-132 | An amount over the current balance gives `InsufficientFunds(amount, balance)` and nothing is appended. Withdrawing the whole balance is allowed. Otherwise a non-positive amount gives `InvalidAmount`, and a positive one appends one Withdrawal row whose balance is the previous balance minus the amount. A successful result is the stored balance and is non-negative when the previous balance was. |
| `Banking.Ledger.AddInterestRow` | banking.js:5-42 | Always appends exactly one Interest row at `lastRow + 1`. Its evaluated amount is the previous balance times the configured rate, and its balance is the previous balance plus that amount. Earlier entries are unchanged. No cap or rate check is made. |
| `LedgerSheet.PrefixEvaluation` | banking.js:63-73 | Every cell the script writes refers only to its own row and the row above. So rows added below never change the amount or the balance of an existing row. |
| `LedgerSheet.EvaluateAppend` | banking.js:69-73 | Appending a row leaves every existing entry of the evaluated sheet unchanged and adds exactly one entry at the end. |
| `LedgerSheet.AppendRow` | banking.js:63-73 | Appending a row of one of the three shapes keeps the sheet well formed. The new balance is the last balance plus the row's signed amount, and the evaluated sheet gains exactly that entry. |
| `LedgerSheet.AppendInterest` | banking.js:28-41 | Appending the interest row gives an entry whose amount is the last balance times the rate and whose balance is the last balance plus that amount. All earlier entries are kept. |
| `LedgerSheet.RunningBalance` | banking.js:30-35 | In every well-formed sheet, under any rate, every entry after the seed has balance = previous balance + amount for Deposit and Interest, and − amount for Withdrawal (the formulas of lines 35 and 67). An Interest amount is the previous balance times the rate. Every Deposit and Withdrawal amount is positive. |
| `LedgerSheet.BalanceIsSeedPlusNetChange` | banking.js:63-73 | Every balance equals the seed balance plus the sum of the signed amounts of the rows from the first transaction down to that row. |
| `LedgerSheet.GuardsHeldAppend` | banking.js:101-131 | Appending a row whose own check passed keeps every earlier check true. Deposit balances stay within the cap, and each withdrawal stays covered by the balance above it. |
| `LedgerSheet.BalancesNonNegative` | banking.js:123-131 | A non-negative seed balance and rate, with every withdrawal covered by the balance above it, give a non-negative balance in every row. |
| `LedgerSheet.InterestIgnoresCap` | banking.js:5-42 | With the last balance at a positive cap and a positive rate, the interest row takes the balance above the cap. |
| `LedgerSheet.RateEditRevaluesHistory` | banking.js:30 | The interest amount reads `Configuration!$B$3` at evaluation time. The same rows show different interest amounts under different rates. Lowering the rate can make a withdrawal that passed its check overdraw the balance. |

## Left out

- Spreadsheet lookup failures (the missing "Ledger" sheet at banking.js:11-13, 55-57 and 98-100, and the missing "Configuration" sheet at banking.js:91-93) are not modelled. Every method assumes both sheets exist.
- `SpreadsheetApp.flush()` and `getDisplayValue()` formatting are not modelled. The read-back is the evaluated balance cell, and no rounding rule is assumed.
- Banking.Ledger.AddLedgerEntry: returns the stored balance as a number. The source returns the sheet's display string for it.
- Banking.Ledger.AddDepositRow: returns the stored balance as a number. The source returns the display string.
- Banking.Ledger.AddWithdrawalRow: returns the stored balance as a number. The source returns the display string.
- The clock (`new Date()`) becomes a `Timestamp` parameter.
- JavaScript numbers and type coercion are not modelled. Amounts, balances, the rate and the cap are exact reals. The `typeof amount !== 'number'` branch cannot arise, because the amount is typed. NaN, the infinities and non-numeric cells such as an empty cap cell are not represented.
- The sheet is required to have a numeric seed row above the first transaction. A sheet whose last row is the header, where `D1` is the text "Balance", is outside the model.
- Editing the Configuration sheet between calls: no method changes the rate or the cap. The effect of another rate on the same rows is stated at the sheet level by `RateEditRevaluesHistory`.
- The other Configuration cells (APY, compounding frequency, title) are not read by the modelled functions.
- Concurrency: the script's read-then-append is unguarded. Each method is modelled as one atomic call.
- web.js (the HTML page and the client-side `parseFloat` prompt) and setup.js (trigger scheduling and header initialisation) are not part of this model.
