/**
 * The records the ledger engine stores and returns, with the error kinds its
 * operations raise. Money is an `int` count of 0.0001 units, an FX rate an
 * `int` count of 1e-8 units, a calendar date a day number.
 */
module Schemas {

  /** The kinds of failure the engine's operations report. */
  datatype Error = NotFound | InsufficientFunds | CurrencyMismatch | InvalidStatus | PairUnsupported

  datatype Result<T> = Ok(value: T) | Err(error: Error)

  datatype Option<T> = None | Some(value: T)

  /** The kind of record an identifier names, written as its prefix. */
  datatype IdPrefix = CustomerPrefix | AccountPrefix | TxnPrefix | InvoicePrefix | LoanPrefix

  /**
   * An identifier `<PREFIX>_<suffix>`. The engine draws the suffix from a
   * random UUID; here it is a number, written in hexadecimal.
   */
  datatype Id = Id(prefix: IdPrefix, suffix: nat)

  function PrefixText(p: IdPrefix): string {
    match p
    case CustomerPrefix => "CUST"
    case AccountPrefix => "ACC"
    case TxnPrefix => "TX"
    case InvoicePrefix => "INV"
    case LoanPrefix => "LOAN"
  }

  function HexDigit(d: nat): char
    requires d < 16
  {
    if d < 10 then ('0' as int + d) as char else ('a' as int + d - 10) as char
  }

  /** The hexadecimal digits of `n`, most significant first, without leading zeros. */
  function HexDigits(n: nat): string
    decreases n
  {
    if n < 16 then [HexDigit(n)] else HexDigits(n / 16) + [HexDigit(n % 16)]
  }

  /** The identifier as text, as it appears inside transfer descriptions. */
  function IdText(id: Id): string {
    PrefixText(id.prefix) + "_" + HexDigits(id.suffix)
  }

  /** The microseconds in one day. */
  const MicrosPerDay: nat := 86_400_000_000

  /** A microsecond within a day. */
  type Micros = n: nat | n < MicrosPerDay

  /** A point in time: the calendar day and the microsecond within it. */
  datatype DateTime = DateTime(date: int, timeOfDay: Micros)

  datatype TxnType = Deposit | Withdrawal | TransferIn | TransferOut

  datatype InvoiceStatus = Open | Paid | Void

  datatype RiskBand = Low | Medium | High

  datatype Customer = Customer(customerId: Id, fullName: string, kycVerified: bool)

  datatype Account = Account(accountId: Id, customerId: Id, currency: string, balance: int)

  datatype Transaction = Transaction(
    txnId: Id,
    accountId: Id,
    amount: int,
    currency: string,
    kind: TxnType,
    timestamp: DateTime,
    description: string)

  datatype Invoice = Invoice(
    invoiceId: Id,
    customerId: Id,
    amount: int,
    currency: string,
    status: InvoiceStatus,
    dueDate: int)

  datatype Loan = Loan(
    loanId: Id,
    customerId: Id,
    principal: int,
    rateApr: int,
    termMonths: int,
    currency: string)

  datatype StatementLine = StatementLine(date: int, description: string, amount: int, balanceAfter: int)

  datatype Statement = Statement(accountId: Id, fromDate: int, toDate: int, lines: seq<StatementLine>)

  datatype FxQuote = FxQuote(base: string, quote: string, rate: int, timestamp: DateTime)

  datatype RiskReport = RiskReport(customerId: Id, score: int, band: RiskBand, reason: string)

  datatype KycResult = KycResult(customerId: Id, passed: bool, reason: string)
}
