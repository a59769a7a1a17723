/**
 * The in-memory ledger engine. It owns five maps (customers, accounts, the
 * transaction list of each account, invoices and loans) and updates them in
 * place. Every failing operation fails before it changes anything.
 */
module Repository {
  import opened Schemas
  import opened Money
  import opened Ledger
  import Statements
  import Fx
  import Risk

  class InMemoryRepo {
    var customers: map<Id, Customer>
    var accounts: map<Id, Account>
    var txs: map<Id, seq<Transaction>>
    var invoices: map<Id, Invoice>
    var loans: map<Id, Loan>

    /**
     * Every record is kept under its own id and refers to a known customer;
     * every account has a transaction list, whose amounts sum to its balance;
     * no invoice is VOID, since no operation sets that status.
     */
    ghost predicate Valid()
      reads this
    {
      && LedgerConsistent(accounts, txs)
      && (forall c :: c in customers ==> customers[c].customerId == c)
      && (forall a :: a in accounts ==> accounts[a].customerId in customers)
      && (forall i :: i in invoices ==> invoices[i].invoiceId == i && invoices[i].customerId in customers)
      && (forall i :: i in invoices ==> invoices[i].status != Void)
      && (forall l :: l in loans ==> loans[l].loanId == l && loans[l].customerId in customers)
    }

    constructor ()
      ensures Valid()
      ensures customers == map[] && accounts == map[] && txs == map[]
      ensures invoices == map[] && loans == map[]
    {
      customers, accounts, txs := map[], map[], map[];
      invoices, loans := map[], map[];
    }


    /** `create_customer`: a new, unverified customer under a fresh id. */
    method CreateCustomer(fullName: string) returns (c: Customer)
      requires Valid()
      modifies this
      ensures Valid()
      ensures c.customerId.prefix == CustomerPrefix && c.customerId !in old(customers)
      ensures c.fullName == fullName && !c.kycVerified
      ensures customers == old(customers)[c.customerId := c]
      ensures accounts == old(accounts) && txs == old(txs)
      ensures invoices == old(invoices) && loans == old(loans)
    {
      var cid := NewId(CustomerPrefix, customers.Keys);
      c := Customer(cid, fullName, false);
      customers := customers[cid := c];
    }

    /**
     * `kyc_check`: an unknown customer is reported as a failed check, not an
     * error; a known one is marked verified.
     */
    method KycCheck(customerId: Id) returns (r: KycResult)
      requires Valid()
      modifies this
      ensures Valid()
      ensures customerId !in old(customers) ==>
        r == KycResult(customerId, false, "NOT_FOUND") && customers == old(customers)
      ensures customerId in old(customers) ==>
        && r == KycResult(customerId, true, "VERIFIED_BASIC")
        && customers == old(customers)[customerId := old(customers)[customerId].(kycVerified := true)]
      ensures accounts == old(accounts) && txs == old(txs)
      ensures invoices == old(invoices) && loans == old(loans)
    {
      if customerId !in customers {
        return KycResult(customerId, false, "NOT_FOUND");
      }
      customers := customers[customerId := customers[customerId].(kycVerified := true)];
      r := KycResult(customerId, true, "VERIFIED_BASIC");
    }

    /**
     * `open_account`: for a known customer, a new account under a fresh id
     * with balance zero and an empty transaction list.
     */
    method OpenAccount(customerId: Id, currency: string) returns (r: Result<Account>)
      requires Valid()
      modifies this
      ensures Valid()
      ensures customerId !in old(customers) ==> r == Err(NotFound) && accounts == old(accounts) && txs == old(txs)
      ensures customerId in old(customers) ==>
        && r.Ok?
        && r.value.accountId.prefix == AccountPrefix && r.value.accountId !in old(accounts)
        && r.value == Account(r.value.accountId, customerId, currency, 0)
        && accounts == old(accounts)[r.value.accountId := r.value]
        && txs == old(txs)[r.value.accountId := []]
      ensures customers == old(customers) && invoices == old(invoices) && loans == old(loans)
    {
      if customerId !in customers {
        return Err(NotFound);
      }
      var aid := NewId(AccountPrefix, accounts.Keys);
      DecOnGrid(0);
      var acc := Account(aid, customerId, currency, Dec(0.0));
      accounts := accounts[aid := acc];
      txs := txs[aid := []];
      r := Ok(acc);
    }

    /** `get_account`: the account, whose balance is the sum of its transactions. */
    function GetAccount(accountId: Id): (r: Option<Account>)
      reads this
      requires Valid()
      ensures r.Some? <==> accountId in accounts
      ensures r.Some? ==> r.value.accountId == accountId && r.value.balance == SumAmounts(ListTransactions(accountId))
      ensures r.Some? ==> r.value == accounts[accountId] && r.value.customerId in customers
    {
      if accountId in accounts then Some(accounts[accountId]) else None
    }

    /**
     * `list_transactions`: the account's transactions in the order they were
     * recorded; empty, not an error, for an unknown account.
     */
    function ListTransactions(accountId: Id): (r: seq<Transaction>)
      reads this
      requires Valid()
      ensures accountId !in accounts ==> r == []
      ensures accountId in accounts ==> r == txs[accountId]
      ensures accountId in accounts ==> SumAmounts(r) == accounts[accountId].balance
      ensures forall i :: 0 <= i < |r| ==> r[i].accountId == accountId
    {
      if accountId in txs then txs[accountId] else []
    }

    /**
     * Appends `t` to its account's list and sets the account's balance to
     * `newBalance`, which moves the balance by `t`'s amount.
     */
    method Post(t: Transaction, newBalance: int)
      requires Valid()
      requires t.accountId in accounts
      requires t.currency == accounts[t.accountId].currency
      requires newBalance == accounts[t.accountId].balance + t.amount
      modifies this
      ensures Valid()
      ensures txs == Record(old(txs), t) && accounts == Adjust(old(accounts), t.accountId, t.amount)
      ensures customers == old(customers) && invoices == old(invoices) && loans == old(loans)
    {
      RecordKeepsLedgerConsistent(accounts, txs, t);
      ghost var adjusted := Adjust(accounts, t.accountId, t.amount);
      accounts := accounts[t.accountId := accounts[t.accountId].(balance := newBalance)];
      assert accounts == adjusted;
      txs := Record(txs, t);
    }

    /**
     * `deposit`: adds the quantized amount to the balance and records one
     * DEPOSIT transaction for it in the account's currency.
     */
    method Deposit(accountId: Id, amount: real, desc: string, now: DateTime) returns (r: Result<Transaction>)
      requires Valid()
      modifies this
      ensures Valid()
      ensures accountId !in old(accounts) ==> r == Err(NotFound) && accounts == old(accounts) && txs == old(txs)
      ensures accountId in old(accounts) ==>
        && r.Ok?
        && r.value == Transaction(r.value.txnId, accountId, Dec(amount), old(accounts)[accountId].currency, TxnType.Deposit, now, desc)
        && r.value.txnId.prefix == TxnPrefix && r.value.txnId !in IdsOf(old(txs))
        && txs == old(txs)[accountId := old(txs)[accountId] + [r.value]]
        && accounts == old(accounts)[accountId := old(accounts)[accountId].(balance := old(accounts)[accountId].balance + Dec(amount))]
      ensures customers == old(customers) && invoices == old(invoices) && loans == old(loans)
    {
      if accountId !in accounts {
        return Err(NotFound);
      }
      var acc := accounts[accountId];
      var amt := Dec(amount);
      var tid := NewId(TxnPrefix, IdsOf(txs));
      var t := Transaction(tid, accountId, amt, acc.currency, TxnType.Deposit, now, desc);
      Post(t, AddQuantized(acc.balance, amt));
      r := Ok(t);
    }

    /**
     * `withdraw`: fails with InsufficientFunds when the balance is below the
     * quantized amount; otherwise subtracts it and records one WITHDRAWAL
     * transaction of the negated amount.
     */
    method Withdraw(accountId: Id, amount: real, desc: string, now: DateTime) returns (r: Result<Transaction>)
      requires Valid()
      modifies this
      ensures Valid()
      ensures accountId !in old(accounts) ==> r == Err(NotFound) && accounts == old(accounts) && txs == old(txs)
      ensures accountId in old(accounts) && old(accounts)[accountId].balance < Dec(amount) ==>
        r == Err(InsufficientFunds) && accounts == old(accounts) && txs == old(txs)
      ensures accountId in old(accounts) && old(accounts)[accountId].balance >= Dec(amount) ==>
        && r.Ok?
        && r.value == Transaction(r.value.txnId, accountId, -Dec(amount), old(accounts)[accountId].currency, Withdrawal, now, desc)
        && r.value.txnId.prefix == TxnPrefix && r.value.txnId !in IdsOf(old(txs))
        && txs == old(txs)[accountId := old(txs)[accountId] + [r.value]]
        && accounts == old(accounts)[accountId := old(accounts)[accountId].(balance := old(accounts)[accountId].balance - Dec(amount))]
      ensures customers == old(customers) && invoices == old(invoices) && loans == old(loans)
    {
      if accountId !in accounts {
        return Err(NotFound);
      }
      var acc := accounts[accountId];
      var amt := Dec(amount);
      if acc.balance < amt {
        return Err(InsufficientFunds);
      }
      var tid := NewId(TxnPrefix, IdsOf(txs));
      var t := Transaction(tid, accountId, -amt, acc.currency, Withdrawal, now, desc);
      Post(t, SubQuantized(acc.balance, amt));
      r := Ok(t);
    }

    /**
     * `transfer`: a withdrawal from the source followed by a deposit to the
     * destination, whose two transactions are then retyped TRANSFER_OUT and
     * TRANSFER_IN where they were appended. Fails, changing nothing, on an
     * unknown account, on differing currencies or on insufficient funds in
     * the source. The withdrawal and the deposit each read the clock, at
     * `nowOut` and then `nowIn`. The two transactions are recorded here with
     * their final types; the postcondition states that the lists are also
     * exactly those the withdrawal, the deposit and the in-place retyping
     * produce.
     */
    method Transfer(srcId: Id, dstId: Id, amount: real, nowOut: DateTime, nowIn: DateTime) returns (r: Result<(Transaction, Transaction)>)
      requires Valid()
      modifies this
      ensures Valid()
      ensures srcId !in old(accounts) || dstId !in old(accounts) ==>
        r == Err(NotFound) && accounts == old(accounts) && txs == old(txs)
      ensures srcId in old(accounts) && dstId in old(accounts) && old(accounts)[srcId].currency != old(accounts)[dstId].currency ==>
        r == Err(CurrencyMismatch) && accounts == old(accounts) && txs == old(txs)
      ensures (&& srcId in old(accounts) && dstId in old(accounts)
               && old(accounts)[srcId].currency == old(accounts)[dstId].currency
               && old(accounts)[srcId].balance < Dec(amount)) ==>
        r == Err(InsufficientFunds) && accounts == old(accounts) && txs == old(txs)
      ensures (&& srcId in old(accounts) && dstId in old(accounts)
               && old(accounts)[srcId].currency == old(accounts)[dstId].currency
               && old(accounts)[srcId].balance >= Dec(amount)) ==>
        && r.Ok?
        && r.value.0 == Transaction(r.value.0.txnId, srcId, -Dec(amount), old(accounts)[srcId].currency, TransferOut, nowOut, "Transfer to " + IdText(dstId))
        && r.value.1 == Transaction(r.value.1.txnId, dstId, Dec(amount), old(accounts)[dstId].currency, TransferIn, nowIn, "Transfer from " + IdText(srcId))
        && r.value.0.txnId.prefix == TxnPrefix && r.value.1.txnId.prefix == TxnPrefix
        && r.value.0.txnId !in IdsOf(old(txs)) && r.value.1.txnId !in IdsOf(old(txs)) && r.value.0.txnId != r.value.1.txnId
        && txs == Record(Record(old(txs), r.value.0), r.value.1)
        && txs == RecordAndRetype(old(txs), r.value.0.(kind := Withdrawal), r.value.1.(kind := TxnType.Deposit), TransferOut, TransferIn)
        && accounts == Adjust(Adjust(old(accounts), srcId, -Dec(amount)), dstId, Dec(amount))
      ensures customers == old(customers) && invoices == old(invoices) && loans == old(loans)
    {
      if srcId !in accounts || dstId !in accounts {
        return Err(NotFound);
      }
      var srcAcc, dstAcc := accounts[srcId], accounts[dstId];
      if srcAcc.currency != dstAcc.currency {
        return Err(CurrencyMismatch);
      }
      var amt := Dec(amount);
      if srcAcc.balance < amt {
        return Err(InsufficientFunds);
      }
      ghost var txs0, accounts0 := txs, accounts;
      var debitId := NewId(TxnPrefix, IdsOf(txs));
      var debit := Transaction(debitId, srcId, -amt, srcAcc.currency, TransferOut, nowOut, "Transfer to " + IdText(dstId));
      Post(debit, SubQuantized(srcAcc.balance, amt));
      ghost var accounts1 := accounts;
      assert accounts1 == Adjust(accounts0, srcId, -amt);
      var creditId := NewId(TxnPrefix, IdsOf(txs));
      FreshBeforeAppend(txs0, srcId, debit, creditId);
      var credit := Transaction(creditId, dstId, amt, dstAcc.currency, TransferIn, nowIn, "Transfer from " + IdText(srcId));
      Post(credit, AddQuantized(accounts[dstId].balance, amt));
      assert accounts == Adjust(accounts1, dstId, amt);
      RecordAndRetypeIsRecord(txs0, debit.(kind := Withdrawal), credit.(kind := TxnType.Deposit), TransferOut, TransferIn);
      r := Ok((debit, credit));
    }

    /** `create_invoice`: for a known customer, a new OPEN invoice under a fresh id. */
    method CreateInvoice(customerId: Id, amount: real, currency: string, dueDate: int) returns (r: Result<Invoice>)
      requires Valid()
      modifies this
      ensures Valid()
      ensures customerId !in old(customers) ==> r == Err(NotFound) && invoices == old(invoices)
      ensures customerId in old(customers) ==>
        && r.Ok?
        && r.value.invoiceId.prefix == InvoicePrefix && r.value.invoiceId !in old(invoices)
        && r.value == Invoice(r.value.invoiceId, customerId, Dec(amount), currency, Open, dueDate)
        && invoices == old(invoices)[r.value.invoiceId := r.value]
      ensures customers == old(customers) && accounts == old(accounts) && txs == old(txs) && loans == old(loans)
    {
      if customerId !in customers {
        return Err(NotFound);
      }
      var iid := NewId(InvoicePrefix, invoices.Keys);
      var inv := Invoice(iid, customerId, Dec(amount), currency, Open, dueDate);
      invoices := invoices[iid := inv];
      r := Ok(inv);
    }

    /**
     * `pay_invoice`: OPEN becomes PAID; any other status fails with
     * InvalidStatus, so an invoice is paid at most once. No other invoice changes.
     */
    method PayInvoice(invoiceId: Id) returns (r: Result<Invoice>)
      requires Valid()
      modifies this
      ensures Valid()
      ensures invoiceId !in old(invoices) ==> r == Err(NotFound) && invoices == old(invoices)
      ensures invoiceId in old(invoices) && old(invoices)[invoiceId].status != Open ==>
        r == Err(InvalidStatus) && invoices == old(invoices)
      ensures invoiceId in old(invoices) && old(invoices)[invoiceId].status == Open ==>
        && r == Ok(old(invoices)[invoiceId].(status := Paid))
        && invoices == old(invoices)[invoiceId := r.value]
      ensures customers == old(customers) && accounts == old(accounts) && txs == old(txs) && loans == old(loans)
    {
      if invoiceId !in invoices {
        return Err(NotFound);
      }
      var inv := invoices[invoiceId];
      if inv.status != Open {
        return Err(InvalidStatus);
      }
      inv := inv.(status := Paid);
      invoices := invoices[invoiceId := inv];
      r := Ok(inv);
    }

    /**
     * `invoice_status`: the status of a known invoice, which is OPEN or PAID
     * since the engine never voids one.
     */
    function InvoiceStatus(invoiceId: Id): (r: Result<InvoiceStatus>)
      reads this
      requires Valid()
      ensures r.Ok? <==> invoiceId in invoices
      ensures r.Err? ==> r.error == NotFound
      ensures r.Ok? ==> r.value == Open || r.value == Paid
      ensures r.Ok? ==> (r.value == Open <==> invoiceId in OpenInvoicesOf(invoices[invoiceId].customerId))
      ensures r.Ok? ==> r.value == invoices[invoiceId].status
    {
      if invoiceId in invoices then Ok(invoices[invoiceId].status) else Err(NotFound)
    }

    /**
     * `create_loan`: for a known customer, a new loan under a fresh id with
     * quantized principal and rate.
     */
    method CreateLoan(customerId: Id, principal: real, rateApr: real, termMonths: int, currency: string)
      returns (r: Result<Loan>)
      requires Valid()
      modifies this
      ensures Valid()
      ensures customerId !in old(customers) ==> r == Err(NotFound) && loans == old(loans)
      ensures customerId in old(customers) ==>
        && r.Ok?
        && r.value.loanId.prefix == LoanPrefix && r.value.loanId !in old(loans)
        && r.value == Loan(r.value.loanId, customerId, Dec(principal), Dec(rateApr), termMonths, currency)
        && loans == old(loans)[r.value.loanId := r.value]
      ensures customers == old(customers) && accounts == old(accounts) && txs == old(txs) && invoices == old(invoices)
    {
      if customerId !in customers {
        return Err(NotFound);
      }
      var lid := NewId(LoanPrefix, loans.Keys);
      var loan := Loan(lid, customerId, Dec(principal), Dec(rateApr), termMonths, currency);
      loans := loans[lid := loan];
      r := Ok(loan);
    }

    /**
     * `generate_statement`: the account's transactions dated within
     * [fromDate, toDate], in list order, with a running balance from zero.
     */
    method GenerateStatement(accountId: Id, fromDate: int, toDate: int) returns (r: Result<Statement>)
      requires Valid()
      ensures accountId !in accounts ==> r == Err(NotFound)
      ensures accountId in accounts ==>
        r == Ok(Statement(accountId, fromDate, toDate, Statements.Lines(txs[accountId], fromDate, toDate)))
    {
      if accountId !in accounts {
        return Err(NotFound);
      }
      var ts := ListTransactions(accountId);
      var lines: seq<StatementLine> := [];
      var balance := 0;
      for i := 0 to |ts|
        invariant lines == Statements.Lines(ts[..i], fromDate, toDate)
        invariant balance == Statements.Closing(lines)
      {
        var t := ts[i];
        assert ts[..i + 1][..i] == ts[..i];
        if fromDate <= t.timestamp.date <= toDate {
          balance := balance + t.amount;
          lines := lines + [StatementLine(t.timestamp.date, t.description, t.amount, balance)];
        }
      }
      assert ts[..|ts|] == ts;
      r := Ok(Statement(accountId, fromDate, toDate, lines));
    }

    /** The ids of the customer's accounts. */
    function AccountsOf(customerId: Id): set<Id>
      reads this
    {
      set a | a in accounts && accounts[a].customerId == customerId
    }

    /** The ids of the customer's OPEN invoices. */
    function OpenInvoicesOf(customerId: Id): set<Id>
      reads this
    {
      set i | i in invoices && invoices[i].customerId == customerId && invoices[i].status == Open
    }

    /** `risk_score`: the clamped heuristic over the customer's accounts and open invoices. */
    function RiskScore(customerId: Id): (r: Result<RiskReport>)
      reads this
      ensures r.Ok? <==> customerId in customers
      ensures r.Err? ==> r.error == NotFound
      ensures r.Ok? ==>
        && r.value.customerId == customerId
        && 300 <= r.value.score <= 850
        && r.value.score == Risk.Score(|AccountsOf(customerId)|, |OpenInvoicesOf(customerId)|)
        && r.value.band == Risk.BandOf(r.value.score)
        && r.value.reason == "Toy heuristic"
    {
      if customerId !in customers then Err(NotFound)
      else
        var score := Risk.Score(|AccountsOf(customerId)|, |OpenInvoicesOf(customerId)|);
        Ok(RiskReport(customerId, score, Risk.BandOf(score), "Toy heuristic"))
    }

    /** `fx_quote`, stamped with the time `now`. */
    function GetFxQuote(base: string, quote: string, now: DateTime): (r: Result<FxQuote>)
      ensures r.Ok? <==> (Fx.Upper(base), Fx.Upper(quote)) in Fx.Rates
      ensures r.Err? ==> r.error == PairUnsupported
      ensures r.Ok? ==>
        && r.value.base == Fx.Upper(base) && r.value.quote == Fx.Upper(quote)
        && r.value.rate == Fx.Rates[(r.value.base, r.value.quote)] && r.value.timestamp == now
    {
      Fx.Quote(base, quote, now)
    }
  }
}
