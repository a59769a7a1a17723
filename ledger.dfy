/**
 * What the ledger keeps consistent: an account's balance is the sum of the
 * amounts of its transactions, and every transaction of an account carries
 * that account's id and currency. Also the supply of fresh identifiers.
 */
module Ledger {
  import opened Schemas

  /** The sum of the transactions' amounts, added up in list order. */
  function SumAmounts(ts: seq<Transaction>): int
    decreases |ts|
  {
    if ts == [] then 0 else SumAmounts(ts[..|ts| - 1]) + ts[|ts| - 1].amount
  }

  /** Appending a transaction adds its amount to the sum. */
  lemma SumAppend(ts: seq<Transaction>, t: Transaction)
    ensures SumAmounts(ts + [t]) == SumAmounts(ts) + t.amount
  {
    assert (ts + [t])[..|ts|] == ts;
  }

  /** The ledger invariant of one account, kept under its id. */
  ghost predicate AccountConsistent(id: Id, acc: Account, ts: seq<Transaction>) {
    && acc.accountId == id
    && acc.balance == SumAmounts(ts)
    && forall i :: 0 <= i < |ts| ==> ts[i].accountId == id && ts[i].currency == acc.currency
  }

  /** The ledger invariant of every account: each has a list, and is consistent with it. */
  ghost predicate LedgerConsistent(accounts: map<Id, Account>, txs: map<Id, seq<Transaction>>) {
    && accounts.Keys == txs.Keys
    && forall a :: a in accounts ==> AccountConsistent(a, accounts[a], txs[a])
  }

  /**
   * Recording a transaction of the account's own id and currency, while moving
   * the balance by its amount, keeps the account consistent.
   */
  lemma RecordKeepsConsistent(id: Id, acc: Account, ts: seq<Transaction>, t: Transaction)
    requires AccountConsistent(id, acc, ts)
    requires t.accountId == id && t.currency == acc.currency
    ensures AccountConsistent(id, acc.(balance := acc.balance + t.amount), ts + [t])
  {
    SumAppend(ts, t);
  }

  /** Replacing one account and its list by a consistent pair keeps the ledger consistent. */
  lemma UpdateKeepsLedgerConsistent(accounts: map<Id, Account>, txs: map<Id, seq<Transaction>>,
                                    id: Id, acc: Account, ts: seq<Transaction>)
    requires LedgerConsistent(accounts, txs)
    requires AccountConsistent(id, acc, ts)
    ensures LedgerConsistent(accounts[id := acc], txs[id := ts])
  {
  }

  /** The lists after appending `t` to its own account's list. */
  function Record(txs: map<Id, seq<Transaction>>, t: Transaction): map<Id, seq<Transaction>>
    requires t.accountId in txs
  {
    txs[t.accountId := txs[t.accountId] + [t]]
  }

  /** The accounts after moving one account's balance by `delta`. */
  function Adjust(accounts: map<Id, Account>, id: Id, delta: int): map<Id, Account>
    requires id in accounts
  {
    accounts[id := accounts[id].(balance := accounts[id].balance + delta)]
  }

  /**
   * Recording a transaction while moving its account's balance by its amount
   * keeps the ledger consistent, provided it carries the account's currency.
   */
  lemma RecordKeepsLedgerConsistent(accounts: map<Id, Account>, txs: map<Id, seq<Transaction>>, t: Transaction)
    requires LedgerConsistent(accounts, txs)
    requires t.accountId in accounts && t.currency == accounts[t.accountId].currency
    ensures LedgerConsistent(Adjust(accounts, t.accountId, t.amount), Record(txs, t))
  {
    var id := t.accountId;
    RecordKeepsConsistent(id, accounts[id], txs[id], t);
    UpdateKeepsLedgerConsistent(accounts, txs, id, accounts[id].(balance := accounts[id].balance + t.amount), txs[id] + [t]);
  }

  /** The lists after changing, in place, the type of entry `k` of account `a`'s list. */
  function Retype(txs: map<Id, seq<Transaction>>, a: Id, k: nat, kind: TxnType): map<Id, seq<Transaction>>
    requires a in txs && k < |txs[a]|
  {
    txs[a := txs[a][k := txs[a][k].(kind := kind)]]
  }

  /**
   * The lists after recording a debit and then a credit, and then changing the
   * type of each where it was appended; the debit is no longer last when both
   * belong to one account.
   */
  function RecordAndRetype(txs: map<Id, seq<Transaction>>, debit: Transaction, credit: Transaction,
                           outKind: TxnType, inKind: TxnType): map<Id, seq<Transaction>>
    requires debit.accountId in txs && credit.accountId in txs
  {
    var afterDebit := Record(txs, debit);
    var recorded := Record(afterDebit, credit);
    var outRetyped := Retype(recorded, debit.accountId, |txs[debit.accountId]|, outKind);
    Retype(outRetyped, credit.accountId, |afterDebit[credit.accountId]|, inKind)
  }

  /**
   * Recording a debit and a credit and then retyping them where they were
   * appended is the same as recording both with their new types in the first
   * place.
   */
  lemma {:induction false} RecordAndRetypeIsRecord(txs: map<Id, seq<Transaction>>, debit: Transaction, credit: Transaction,
                                                   outKind: TxnType, inKind: TxnType)
    requires debit.accountId in txs && credit.accountId in txs
    ensures RecordAndRetype(txs, debit, credit, outKind, inKind)
      == Record(Record(txs, debit.(kind := outKind)), credit.(kind := inKind))
  {
    var src, dst := debit.accountId, credit.accountId;
    var d', c' := debit.(kind := outKind), credit.(kind := inKind);
    if src == dst {
      assert (txs[src] + [debit] + [credit])[|txs[src]| := d'][|txs[src]| + 1 := c'] == txs[src] + [d'] + [c'];
    } else {
      assert (txs[src] + [debit])[|txs[src]| := d'] == txs[src] + [d'];
      assert (txs[dst] + [credit])[|txs[dst]| := c'] == txs[dst] + [c'];
    }
  }

  /**
   * Moving `x` out of `src` and into `dst`: the two balances keep their sum,
   * no other account changes, and moving within one account changes nothing.
   */
  lemma {:induction false} AdjustPairConserves(accounts: map<Id, Account>, src: Id, dst: Id, x: int)
    requires src in accounts && dst in accounts
    ensures var after := Adjust(Adjust(accounts, src, -x), dst, x);
      && after.Keys == accounts.Keys
      && after[src].balance + after[dst].balance == accounts[src].balance + accounts[dst].balance
      && (src != dst ==> after[src].balance == accounts[src].balance - x && after[dst].balance == accounts[dst].balance + x)
      && (src == dst ==> after == accounts)
      && (forall k :: k in accounts && k != src && k != dst ==> after[k] == accounts[k])
  {
    if src == dst {
      var after := Adjust(Adjust(accounts, src, -x), dst, x);
      assert after[src] == accounts[src];
      assert after == accounts;
    }
  }

  /**
   * Recording a debit of `src` then a credit of `dst`: each lands at the end of
   * its own account's list, in that order when the accounts coincide, and no
   * other list changes.
   */
  lemma {:induction false} RecordPairShape(txs: map<Id, seq<Transaction>>, debit: Transaction, credit: Transaction)
    requires debit.accountId in txs && credit.accountId in txs
    ensures var src, dst, after := debit.accountId, credit.accountId, Record(Record(txs, debit), credit);
      && after.Keys == txs.Keys
      && (src != dst ==> after[src] == txs[src] + [debit] && after[dst] == txs[dst] + [credit])
      && (src == dst ==> after[src] == txs[src] + [debit, credit])
      && (forall k :: k in txs && k != src && k != dst ==> after[k] == txs[k])
  {
    var src := debit.accountId;
    if src == credit.accountId {
      assert txs[src] + [debit] + [credit] == txs[src] + [debit, credit];
    }
  }

  /** The ids of all transactions in the lists. */
  function IdsOf(txs: map<Id, seq<Transaction>>): set<Id> {
    set a, i | a in txs && 0 <= i < |txs[a]| :: txs[a][i].txnId
  }

  /** Appending a transaction to one list adds exactly its id. */
  lemma IdsOfAppend(txs: map<Id, seq<Transaction>>, a: Id, t: Transaction)
    requires a in txs
    ensures IdsOf(txs[a := txs[a] + [t]]) == IdsOf(txs) + {t.txnId}
  {
    var txs' := txs[a := txs[a] + [t]];
    forall x | x in IdsOf(txs') ensures x in IdsOf(txs) + {t.txnId} {
      var b, i :| b in txs' && 0 <= i < |txs'[b]| && txs'[b][i].txnId == x;
      if b == a && i == |txs[a]| {
      } else {
        assert txs[b][i].txnId == x;
      }
    }
    forall x | x in IdsOf(txs) + {t.txnId} ensures x in IdsOf(txs') {
      if x == t.txnId {
        assert txs'[a][|txs[a]|].txnId == x;
      } else {
        var b, i :| b in txs && 0 <= i < |txs[b]| && txs[b][i].txnId == x;
        assert txs'[b][i].txnId == x;
      }
    }
  }

  /** An id that is free after an append was free before it, and is not the appended one's. */
  lemma FreshBeforeAppend(txs: map<Id, seq<Transaction>>, a: Id, t: Transaction, x: Id)
    requires a in txs && x !in IdsOf(txs[a := txs[a] + [t]])
    ensures x !in IdsOf(txs) && x != t.txnId
  {
    IdsOfAppend(txs, a, t);
  }

  /** The largest suffix among a finite set of identifiers. */
  ghost function MaxSuffix(ids: set<Id>): (n: nat)
    ensures forall id :: id in ids ==> id.suffix <= n
    decreases ids
  {
    if ids == {} then 0
    else
      var id :| id in ids;
      var rest := MaxSuffix(ids - {id});
      if id.suffix > rest then id.suffix else rest
  }

  /** However many identifiers are in use, one with any prefix is free. */
  lemma FreshIdExists(prefix: IdPrefix, used: set<Id>)
    ensures exists id :: id !in used && id.prefix == prefix
  {
    assert Id(prefix, MaxSuffix(used) + 1) !in used;
  }

  /**
   * A new identifier with the given prefix that is not already in use: the
   * engine draws its suffix from a random UUID, here any suffix that is free.
   */
  method NewId(prefix: IdPrefix, used: set<Id>) returns (id: Id)
    ensures id !in used && id.prefix == prefix
  {
    FreshIdExists(prefix, used);
    id :| id !in used && id.prefix == prefix;
  }
}
