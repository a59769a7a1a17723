# Finance ledger engine, modelled and verified in Dafny

This project models `InMemoryRepo`, the in-memory engine behind the finance
SOAP suite. The engine holds customers, their accounts and the accounts'
transaction lists, invoices and loans. It offers the following operations:

- KYC check;
- deposits, withdrawals and transfers;
- the invoice life cycle OPEN → PAID;
- loans and simple interest;
- quotes from a static FX table;
- windowed account statements;
- a toy risk score.

Python `Decimal` arithmetic is exact decimal arithmetic, so money is modelled
without floating point:

- An amount is an `int` count of 0.0001 units.
- An FX rate is an `int` count of 1e-8 units.
- The decimals a caller passes in are Dafny `real`s, which are exact rationals.
- `_dec` is `Money.Dec`: rounding to the 0.0001 grid, with a tie going away
  from zero (`ROUND_HALF_UP`).

The modules follow the source:

- `Schemas` holds the records of `schemas.py`, the error kinds and the
  identifiers.
- `Money` holds `_dec` and `calc_interest`.
- `Ledger` holds the ledger invariant and the fresh identifiers.
- `Statements`, `Fx` and `Risk` hold the pure specifications of those
  operations.
- `Repository` holds the engine itself.
- `Scenarios` holds three end-to-end scenarios on a fresh engine.

The engine is a class whose five map fields its methods update in place. Its
invariant `Valid()` contains `LedgerConsistent`, which says:

- every account has a transaction list;
- the account's balance is the sum of that list's amounts;
- every transaction in the list carries the account's id and currency.

Every mutating method keeps `Valid()`. Every failure is reported as a `Result`
error kind. A failure happens before anything changes, and the postconditions
state that nothing changed. The exception is `kyc_check`, whose "not found"
answer is a normal result.

`deposit`, `withdraw` and `transfer` (repository.py:52-94) do not reject zero
or negative amounts, and neither does the model.

## Model

| member | source | states |
|---|---|---|
| Money.Dec | finance-soap-suite/finance_soap/repository.py:22-23 | the result is the input rounded to the nearest 0.0001 unit, a tie going away from zero; a non-negative input gives a non-negative result, a non-positive one a non-positive result |
| Money.HalfUpUnique | finance-soap-suite/finance_soap/repository.py:22-23 | at most one unit count is the half-up rounding of a value, so `Dec` is the rounding `ROUND_HALF_UP` defines |
| Money.DecOnGrid | finance-soap-suite/finance_soap/repository.py:22-23 | a value that already has 4 decimal places is left unchanged |
| Money.DecIdempotent | finance-soap-suite/finance_soap/repository.py:22-23 | rounding a rounded value changes nothing |
| Money.DecTieRoundsUp | finance-soap-suite/finance_soap/repository.py:22-23 | a positive value exactly halfway between two grid points rounds up |
| Money.DecTieRoundsDown | finance-soap-suite/finance_soap/repository.py:22-23 | a negative value exactly halfway rounds away from zero |
| Money.DecNegate | finance-soap-suite/finance_soap/repository.py:22-23 | rounding commutes with negation |
| Money.DecMonotone | finance-soap-suite/finance_soap/repository.py:22-23 | rounding never reverses the order of two values |
| Money.DecSum | finance-soap-suite/finance_soap/repository.py:54-55 | rounding the sum of two quantized amounts is exact |
| Money.DecDifference | finance-soap-suite/finance_soap/repository.py:70-73 | rounding the difference of two quantized amounts is exact |
| Money.AddQuantized | finance-soap-suite/finance_soap/repository.py:55 | the re-rounded new deposit balance is exactly the old balance plus the amount |
| Money.SubQuantized | finance-soap-suite/finance_soap/repository.py:73 | the re-rounded new withdrawal balance is exactly the old balance minus the amount |
| Money.CalcInterest | finance-soap-suite/finance_soap/repository.py:139-142 | the interest is the half-up rounding of quantized principal × quantized rate × days / 36500; it is zero for zero days and never negative for non-negative inputs |
| Money.CalcInterestOneYear | finance-soap-suite/finance_soap/repository.py:139-142 | 1000 at 12% for 365 days is 120.0000 |
| Ledger.SumAppend | finance-soap-suite/finance_soap/repository.py:55-65 | appending a transaction adds its amount to the list's sum |
| Ledger.RecordKeepsConsistent | finance-soap-suite/finance_soap/repository.py:52-84 | appending a transaction in the account's id and currency while moving the balance by its amount keeps the balance equal to the list's sum |
| Ledger.UpdateKeepsLedgerConsistent | finance-soap-suite/finance_soap/repository.py:9-14 | replacing one account and its list by a consistent pair keeps every account consistent |
| Ledger.RecordKeepsLedgerConsistent | finance-soap-suite/finance_soap/repository.py:52-84 | recording a transaction and moving its account's balance by its amount keeps the whole ledger consistent |
| Ledger.RecordAndRetypeIsRecord | finance-soap-suite/finance_soap/repository.py:89-93 | withdrawing, depositing, then retyping the two transactions where they were appended leaves the same lists as recording the two with their final types, including when the source and destination are one account |
| Ledger.AdjustPairConserves | finance-soap-suite/finance_soap/repository.py:86-94 | moving an amount from one account to another keeps the sum of the two balances, changes no other account, and changes nothing when the two are one account |
| Ledger.RecordPairShape | finance-soap-suite/finance_soap/repository.py:86-94 | after a transfer the debit ends the source's list and the credit ends the destination's, in that order when they coincide; no other list changes |
| Ledger.IdsOfAppend | finance-soap-suite/finance_soap/repository.py:56-64 | appending a transaction adds exactly its id to the ids in use |
| Ledger.FreshBeforeAppend | finance-soap-suite/finance_soap/repository.py:89-90 | an id fresh after the debit is recorded was fresh before it, and is not the debit's id |
| Ledger.FreshIdExists | finance-soap-suite/finance_soap/repository.py:18-19 | a free identifier with any prefix always exists |
| Ledger.NewId | finance-soap-suite/finance_soap/repository.py:18-19 | the new identifier has the requested prefix and is not already in use |
| Statements.Window | finance-soap-suite/finance_soap/repository.py:164-165 | the window is no longer than the history and holds only transactions dated within the bounds |
| Statements.Lines | finance-soap-suite/finance_soap/repository.py:164-169 | one line per transaction of the window, each dated within the bounds; `LinesFollowWindow` gives each line's contents and running balance |
| Statements.WindowMembers | finance-soap-suite/finance_soap/repository.py:164-165 | a transaction is in the window exactly when it is in the history and dated within the bounds |
| Statements.WindowConcat | finance-soap-suite/finance_soap/repository.py:164-165 | the window of a concatenation is the concatenation of the windows, so list order is kept |
| Statements.WindowAll | finance-soap-suite/finance_soap/repository.py:164-165 | when every transaction is dated within the bounds, the window is the whole history |
| Statements.LinesFollowWindow | finance-soap-suite/finance_soap/repository.py:160-170 | there is one line per windowed transaction, in order; line k carries that transaction's date, description and amount, and a balance equal to the sum of windowed amounts 0..k starting from zero; the last balance is the window's sum |
| Statements.ClosingIsBalanceForFullWindow | finance-soap-suite/finance_soap/repository.py:160-170 | when the window covers every transaction, the statement's last running balance is the sum of the whole history |
| Fx.UpperProperties | finance-soap-suite/finance_soap/repository.py:154 | upper-casing keeps the length, leaves no lower-case letter, is idempotent and leaves upper-case codes alone |
| Fx.Upper | finance-soap-suite/finance_soap/repository.py:154 | the upper-cased code has the same length and no lower-case letter, and every character that is not a lower-case letter is kept |
| Fx.UpperEqualIff | finance-soap-suite/finance_soap/repository.py:154 | two codes upper-case to the same code exactly when they agree ignoring case |
| Fx.Quote | finance-soap-suite/finance_soap/repository.py:145-157 | a quote succeeds exactly when the upper-cased pair is in the table, otherwise fails with PairUnsupported; a quote carries the upper-cased codes, the table's rate for that pair (positive) and the time `now` |
| Fx.QuoteIgnoresCase | finance-soap-suite/finance_soap/repository.py:154-157 | the quote depends on the codes only up to letter case |
| Fx.QuotedPairs | finance-soap-suite/finance_soap/repository.py:146-153 | only USD, EUR and NPR are quoted, never against themselves |
| Fx.RatesReciprocal | finance-soap-suite/finance_soap/repository.py:146-153 | the table lists every pair both ways, and the two rates of a pair are reciprocal to within one part in a million but never exactly |
| Fx.QuoteUsdEur | finance-soap-suite/finance_soap/repository.py:147 | "usd"/"eur" and "USD"/"EUR" both give USD/EUR at 0.91000000 |
| Fx.QuoteNprJpyUnsupported | finance-soap-suite/finance_soap/repository.py:154-156 | NPR to JPY fails with PairUnsupported |
| Risk.Score | finance-soap-suite/finance_soap/repository.py:179 | the score always lies in [300, 850]; it is exactly 300 when 700 + 10 per account − 30 per open invoice is at most 300, and exactly 850 when that is at least 850 |
| Risk.BandOf | finance-soap-suite/finance_soap/repository.py:180 | LOW exactly from 700 up, HIGH exactly below 600, MEDIUM otherwise |
| Risk.ScoreMonotone | finance-soap-suite/finance_soap/repository.py:179 | more accounts never lower the score; more open invoices never raise it |
| Risk.ScoreUnclamped | finance-soap-suite/finance_soap/repository.py:179 | within the clamp bounds the score is 700 + 10 per account − 30 per open invoice |
| Risk.BandByCounts | finance-soap-suite/finance_soap/repository.py:179-180 | LOW exactly when open invoices are at most a third of the accounts; HIGH exactly when 30 per open invoice exceeds 10 per account by more than 100 |
| Repository.InMemoryRepo.constructor | finance-soap-suite/finance_soap/repository.py:9-14 | the engine starts with five empty maps and satisfies its invariant |
| Repository.InMemoryRepo.CreateCustomer | finance-soap-suite/finance_soap/repository.py:26-30 | adds an unverified customer under a fresh CUST id; nothing else changes |
| Repository.InMemoryRepo.KycCheck | finance-soap-suite/finance_soap/repository.py:32-37 | an unknown customer gives passed=false with NOT_FOUND and changes nothing; a known one is marked verified and gives passed=true with VERIFIED_BASIC |
| Repository.InMemoryRepo.OpenAccount | finance-soap-suite/finance_soap/repository.py:40-47 | fails with NotFound for an unknown customer, changing nothing; otherwise adds an account under a fresh ACC id, in the requested currency, with balance 0 and an empty list |
| Repository.InMemoryRepo.GetAccount | finance-soap-suite/finance_soap/repository.py:49-50 | the account is found exactly when it exists; it is the stored account, owned by a known customer, and its balance is the sum of its listed transactions |
| Repository.InMemoryRepo.ListTransactions | finance-soap-suite/finance_soap/repository.py:96-97 | an unknown account gives the empty list; a known one gives its stored list in recording order, whose amounts sum to the balance and all belong to the account |
| Repository.InMemoryRepo.Post | finance-soap-suite/finance_soap/repository.py:55-83 | the step deposit and withdraw share: the account's balance becomes the given new balance, which is the old one moved by the transaction's amount, the transaction is appended to its list, the ledger invariant still holds and nothing else changes |
| Repository.InMemoryRepo.Deposit | finance-soap-suite/finance_soap/repository.py:52-66 | fails with NotFound for an unknown account, changing nothing; otherwise appends exactly one DEPOSIT of the rounded amount in the account's currency under a fresh TX id, raises that balance by the same amount, and changes no other account or list |
| Repository.InMemoryRepo.Withdraw | finance-soap-suite/finance_soap/repository.py:68-84 | fails with InsufficientFunds, changing nothing, exactly when the balance is below the rounded amount; otherwise appends one WITHDRAWAL of the negated rounded amount under a fresh TX id and lowers the balance by it, changing nothing else |
| Repository.InMemoryRepo.Transfer | finance-soap-suite/finance_soap/repository.py:86-94 | fails with no change for an unknown account, for differing currencies and for insufficient funds. On success the source gains a TRANSFER_OUT of minus the rounded amount, stamped at the first clock reading, and the destination a TRANSFER_IN of plus it, stamped at the second, with two distinct fresh TX ids. The lists are those the withdrawal, the deposit and the in-place retyping produce. Both balances move by the amount |
| Repository.InMemoryRepo.CreateInvoice | finance-soap-suite/finance_soap/repository.py:100-112 | fails with NotFound for an unknown customer; otherwise adds an OPEN invoice of the rounded amount under a fresh INV id |
| Repository.InMemoryRepo.PayInvoice | finance-soap-suite/finance_soap/repository.py:114-119 | fails with NotFound for an unknown invoice and with InvalidStatus, changing nothing, unless it is OPEN; otherwise it becomes PAID and no other invoice changes |
| Repository.InMemoryRepo.InvoiceStatus | finance-soap-suite/finance_soap/repository.py:121-122 | fails with NotFound exactly for an unknown invoice; otherwise returns the stored status, which is OPEN or PAID, never VOID, and is OPEN exactly when the invoice counts among its customer's open invoices |
| Repository.InMemoryRepo.CreateLoan | finance-soap-suite/finance_soap/repository.py:125-137 | fails with NotFound for an unknown customer; otherwise adds a loan with rounded principal and rate under a fresh LOAN id |
| Repository.InMemoryRepo.GenerateStatement | finance-soap-suite/finance_soap/repository.py:160-170 | fails with NotFound for an unknown account; otherwise the loop builds exactly `Statements.Lines` of the account's list, whose meaning `Statements.LinesFollowWindow` gives; no state changes |
| Repository.InMemoryRepo.RiskScore | finance-soap-suite/finance_soap/repository.py:173-181 | fails with NotFound for an unknown customer; otherwise the score is the clamped heuristic over the customer's accounts and open invoices, in [300, 850], with the matching band and the reason "Toy heuristic" |
| Repository.InMemoryRepo.GetFxQuote | finance-soap-suite/finance_soap/repository.py:145-157 | succeeds exactly when the upper-cased pair is listed, otherwise fails with PairUnsupported; returns the upper-cased codes, the table's rate for them and the time `now` |
| Scenarios.DepositThenWithdraw | finance-soap-suite/finance_soap/repository.py:52-84 | deposit 100 then withdraw 30 leaves 70.0000, and the account's whole list is exactly two transactions, DEPOSIT +100 then WITHDRAWAL −30 |
| Scenarios.DepositAndWithdraw | finance-soap-suite/finance_soap/repository.py:52-84 | after opening an account, depositing 100 and withdrawing 30, the list holds exactly DEPOSIT +100 then WITHDRAWAL −30 and the invariant holds |
| Scenarios.TransferBetweenAccounts | finance-soap-suite/finance_soap/repository.py:86-94 | moving 40 out of an account holding 100 leaves 60.0000 and 40.0000, ending in TRANSFER_OUT −40 stamped at the first clock reading and TRANSFER_IN +40 stamped at the second |
| Scenarios.PayInvoiceTwice | finance-soap-suite/finance_soap/repository.py:100-122 | a new invoice is OPEN, the first payment makes it PAID, and the second fails with InvalidStatus |

## Left out

- Identifiers: the engine appends 12 hex digits of a random UUID to the prefix (repository.py:18-19). Here an identifier is its prefix plus any suffix number not yet in use; randomness is not modelled.
- Clock: each `datetime.utcnow()` call becomes a parameter. `Transfer` takes two, `nowOut` for the withdrawal (repository.py:80) and `nowIn` for the deposit (repository.py:62), and nothing orders them. A timestamp is a day number plus a microsecond within the day, and a date is a day number.
- Default descriptions: Dafny has no default arguments, so callers of `Deposit` and `Withdraw` pass the description. The engine's defaults are "Deposit" and "Withdrawal".
- Money.CalcInterest: the arithmetic is exact. Python rounds each intermediate to 28 significant digits (half-even), so the engine's 4-place result can differ from the model's in two cases. The first is a product of principal, rate and days with more than 28 significant digits. The second is when the quotient by 365 lies within half a unit of its 28th significant digit of a half-way point at the fifth decimal place, so that rounding it to 28 digits moves it onto or across that point before the half-up rounding to 4 places.
- Decimal special values: the model's amounts are finite rationals. In Python, `deposit` of NaN quantizes to NaN and stores it as both the amount and the balance (repository.py:54-55, 59), which breaks the sum invariant; after that, the `<` in `withdraw` (repository.py:71) raises on the NaN balance. Quantizing an infinite amount raises `InvalidOperation`.
- Money.Dec: quantizing a value whose result needs more than 28 digits raises `InvalidOperation` in Python. The model has no such limit, and does not enforce the `precision=18` field declarations in `schemas.py`.
- Repository.InMemoryRepo.GenerateStatement: the engine re-quantizes the running balance with the context's default rounding (half-even). The amounts are already on the 0.0001 grid, so this is exact, and the model adds integers.
- Fx.Upper: only ASCII letters are upper-cased. Python's `str.upper` also maps other Unicode letters.
- Aliasing: records are values, so the objects a method returns are snapshots. In Python, mutating a returned object would change the stored one. Transfer's in-place retyping is the one place the engine relies on this, and `Ledger.RecordAndRetypeIsRecord` shows the model's lists match it.
- VOID invoices: no operation sets VOID, so the state exists only in the status type, and `Valid()` states that no stored invoice has it.
- `int(term_months)` conversion (repository.py:133): the parameter is already an integer here.
- Thread safety: the engine has none, and the model has no concurrency.
- Outside the engine: the SOAP service adapter, the server, configuration, and the wire types' Spyne declarations are not part of this model.
