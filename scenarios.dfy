/**
 * End-to-end scenarios on a fresh engine, with the balances, transaction
 * lists and statuses they end in.
 */
module Scenarios {
  import opened Schemas
  import opened Ledger
  import opened Repository
  import Money

  /**
   * A fresh engine with one USD account, after a deposit of 100 and then a
   * withdrawal of 30.
   */
  method DepositAndWithdraw(now: DateTime) returns (repo: InMemoryRepo, a1: Id)
    ensures fresh(repo) && repo.Valid() && a1 in repo.accounts
    ensures |repo.txs[a1]| == 2
    ensures repo.txs[a1][0].kind == TxnType.Deposit && repo.txs[a1][0].amount == 1000000
    ensures repo.txs[a1][1].kind == Withdrawal && repo.txs[a1][1].amount == -300000
  {
    assert Money.Dec(100.0) == 1000000 by { Money.DecOnGrid(1000000); }
    assert Money.Dec(30.0) == 300000 by { Money.DecOnGrid(300000); }
    repo := new InMemoryRepo();
    var customer := repo.CreateCustomer("C1");
    var account := repo.OpenAccount(customer.customerId, "USD");
    a1 := account.value.accountId;
    var d := repo.Deposit(a1, 100.0, "Deposit", now);
    var w := repo.Withdraw(a1, 30.0, "Withdrawal", now);
  }

  /**
   * Open a USD account, deposit 100 and withdraw 30: the balance is 70.0000
   * and the whole list is the DEPOSIT of +100 and then the WITHDRAWAL of -30.
   */
  method DepositThenWithdraw(now: DateTime) returns (balance: int, kinds: seq<TxnType>, amounts: seq<int>)
    ensures balance == 700000
    ensures |kinds| == 2 && |amounts| == 2
    ensures kinds == [TxnType.Deposit, Withdrawal] && amounts == [1000000, -300000]
  {
    var repo, a1 := DepositAndWithdraw(now);
    var ts := repo.ListTransactions(a1);
    assert ts[..1][..0] == [];
    assert SumAmounts(ts[..1]) == 1000000;
    assert SumAmounts(ts) == 700000;
    balance := repo.GetAccount(a1).value.balance;
    kinds := seq(|ts|, i requires 0 <= i < |ts| => ts[i].kind);
    amounts := seq(|ts|, i requires 0 <= i < |ts| => ts[i].amount);
  }

  /**
   * Two USD accounts holding 100 and 0; transferring 40, with the clock read
   * at `nowOut` and then `nowIn`, leaves 60.0000 and 40.0000, the source's
   * last transaction a TRANSFER_OUT of -40 stamped `nowOut` and the
   * destination's a TRANSFER_IN of +40 stamped `nowIn`.
   */
  method TransferBetweenAccounts(now: DateTime, nowOut: DateTime, nowIn: DateTime) returns (srcBalance: int, dstBalance: int, srcLast: Transaction, dstLast: Transaction)
    ensures srcBalance == 600000 && dstBalance == 400000
    ensures srcLast.kind == TransferOut && srcLast.amount == -400000 && srcLast.timestamp == nowOut
    ensures dstLast.kind == TransferIn && dstLast.amount == 400000 && dstLast.timestamp == nowIn
  {
    assert Money.Dec(100.0) == 1000000 by { Money.DecOnGrid(1000000); }
    assert Money.Dec(40.0) == 400000 by { Money.DecOnGrid(400000); }
    var repo := new InMemoryRepo();
    var customer := repo.CreateCustomer("C1");
    var opened1 := repo.OpenAccount(customer.customerId, "USD");
    var opened2 := repo.OpenAccount(customer.customerId, "USD");
    var a1, a2 := opened1.value.accountId, opened2.value.accountId;
    var _ := repo.Deposit(a1, 100.0, "Deposit", now);
    var _ := repo.Transfer(a1, a2, 40.0, nowOut, nowIn);
    srcBalance := repo.GetAccount(a1).value.balance;
    dstBalance := repo.GetAccount(a2).value.balance;
    var srcList, dstList := repo.ListTransactions(a1), repo.ListTransactions(a2);
    srcLast, dstLast := srcList[|srcList| - 1], dstList[|dstList| - 1];
  }

  /**
   * A new invoice is OPEN; paying it makes it PAID, and paying it again fails
   * with InvalidStatus.
   */
  method PayInvoiceTwice() returns (before: InvoiceStatus, first: Result<Invoice>, second: Result<Invoice>)
    ensures before == Open
    ensures first.Ok? && first.value.status == Paid
    ensures second == Err(InvalidStatus)
  {
    var repo := new InMemoryRepo();
    var customer := repo.CreateCustomer("C1");
    var created := repo.CreateInvoice(customer.customerId, 250.0, "USD", 0);
    var iid := created.value.invoiceId;
    before := repo.InvoiceStatus(iid).value;
    first := repo.PayInvoice(iid);
    second := repo.PayInvoice(iid);
  }
}
