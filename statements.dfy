/**
 * The statement view of an account: the transactions dated inside a window,
 * in list order, each with a running balance that starts from zero at the
 * window's opening (net movement in the window, not the account balance).
 */
module Statements {
  import opened Schemas
  import opened Ledger

  /** The transaction is dated within [fromDate, toDate], both ends included. */
  predicate InWindow(t: Transaction, fromDate: int, toDate: int) {
    fromDate <= t.timestamp.date <= toDate
  }

  /** The transactions dated within the window, kept in list order. */
  function Window(ts: seq<Transaction>, fromDate: int, toDate: int): (w: seq<Transaction>)
    ensures |w| <= |ts|
    ensures forall i :: 0 <= i < |w| ==> InWindow(w[i], fromDate, toDate)
    decreases |ts|
  {
    if ts == [] then []
    else
      var w := Window(ts[..|ts| - 1], fromDate, toDate);
      if InWindow(ts[|ts| - 1], fromDate, toDate) then w + [ts[|ts| - 1]] else w
  }

  /** The running balance after the last line, zero before the first. */
  function Closing(lines: seq<StatementLine>): int {
    if lines == [] then 0 else lines[|lines| - 1].balanceAfter
  }

  /** The line a transaction contributes, given the running balance after it. */
  function LineOf(t: Transaction, balanceAfter: int): StatementLine {
    StatementLine(t.timestamp.date, t.description, t.amount, balanceAfter)
  }

  /**
   * The statement lines, built one transaction at a time in list order: one
   * line per transaction of the window.
   */
  function Lines(ts: seq<Transaction>, fromDate: int, toDate: int): (r: seq<StatementLine>)
    ensures |r| == |Window(ts, fromDate, toDate)|
    ensures forall k :: 0 <= k < |r| ==> fromDate <= r[k].date <= toDate
    decreases |ts|
  {
    if ts == [] then []
    else
      var prev := Lines(ts[..|ts| - 1], fromDate, toDate);
      var t := ts[|ts| - 1];
      if InWindow(t, fromDate, toDate) then prev + [LineOf(t, Closing(prev) + t.amount)] else prev
  }

  /** A transaction is kept exactly when it is dated within the window. */
  lemma {:induction false} WindowMembers(ts: seq<Transaction>, fromDate: int, toDate: int, t: Transaction)
    ensures t in Window(ts, fromDate, toDate) <==> t in ts && InWindow(t, fromDate, toDate)
    decreases |ts|
  {
    if ts != [] {
      var n := |ts| - 1;
      WindowMembers(ts[..n], fromDate, toDate, t);
      assert ts == ts[..n] + [ts[n]];
    }
  }

  /** Filtering distributes over concatenation, so list order is kept. */
  lemma {:induction false} WindowConcat(a: seq<Transaction>, b: seq<Transaction>, fromDate: int, toDate: int)
    ensures Window(a + b, fromDate, toDate) == Window(a, fromDate, toDate) + Window(b, fromDate, toDate)
    decreases |b|
  {
    if b == [] {
      assert a + b == a;
    } else {
      var n := |b| - 1;
      assert (a + b)[..|a + b| - 1] == a + b[..n];
      WindowConcat(a, b[..n], fromDate, toDate);
    }
  }

  /** A window that covers every transaction's date keeps them all. */
  lemma {:induction false} WindowAll(ts: seq<Transaction>, fromDate: int, toDate: int)
    requires forall i :: 0 <= i < |ts| ==> InWindow(ts[i], fromDate, toDate)
    ensures Window(ts, fromDate, toDate) == ts
    decreases |ts|
  {
    if ts != [] {
      var n := |ts| - 1;
      WindowAll(ts[..n], fromDate, toDate);
      assert ts[..n] + [ts[n]] == ts;
    }
  }

  /**
   * Line k of a statement is the k-th transaction in the window, and its
   * running balance is the sum of the amounts of lines 0..k.
   */
  lemma {:induction false} LinesFollowWindow(ts: seq<Transaction>, fromDate: int, toDate: int)
    ensures var lines, w := Lines(ts, fromDate, toDate), Window(ts, fromDate, toDate);
      && |lines| == |w|
      && (forall k :: 0 <= k < |lines| ==> lines[k] == LineOf(w[k], SumAmounts(w[..k + 1])))
      && Closing(lines) == SumAmounts(w)
    decreases |ts|
  {
    if ts != [] {
      var n := |ts| - 1;
      var t := ts[n];
      var prev := Lines(ts[..n], fromDate, toDate);
      var w := Window(ts[..n], fromDate, toDate);
      LinesFollowWindow(ts[..n], fromDate, toDate);
      if InWindow(t, fromDate, toDate) {
        var lines := prev + [LineOf(t, Closing(prev) + t.amount)];
        var w' := w + [t];
        assert Lines(ts, fromDate, toDate) == lines;
        assert Window(ts, fromDate, toDate) == w';
        SumAppend(w, t);
        forall k | 0 <= k < |lines|
          ensures lines[k] == LineOf(w'[k], SumAmounts(w'[..k + 1]))
        {
          if k < |prev| {
            assert w'[..k + 1] == w[..k + 1];
          } else {
            assert w'[..k + 1] == w';
          }
        }
      }
    }
  }

  /**
   * When the window covers every transaction of an account, the statement's
   * closing running balance is the sum of all its amounts, which the ledger
   * keeps equal to the account balance.
   */
  lemma ClosingIsBalanceForFullWindow(ts: seq<Transaction>, fromDate: int, toDate: int)
    requires forall i :: 0 <= i < |ts| ==> InWindow(ts[i], fromDate, toDate)
    ensures Closing(Lines(ts, fromDate, toDate)) == SumAmounts(ts)
  {
    WindowAll(ts, fromDate, toDate);
    LinesFollowWindow(ts, fromDate, toDate);
  }
}
