/**
 * The risk heuristic: 700, plus 10 per account the customer owns, minus 30
 * per open invoice, clamped to [300, 850], and banded at 700 and 600.
 */
module Risk {
  import opened Schemas

  function Clamp(x: int, lo: int, hi: int): int
    requires lo <= hi
  {
    if x < lo then lo else if x > hi then hi else x
  }

  /**
   * The heuristic score of a customer with the given counts: 700, plus 10
   * per account, minus 30 per open invoice, saturating at 300 and 850.
   */
  function Score(accounts: nat, openInvoices: nat): (s: int)
    ensures 300 <= s <= 850
    ensures 700 + accounts * 10 - openInvoices * 30 <= 300 ==> s == 300
    ensures 700 + accounts * 10 - openInvoices * 30 >= 850 ==> s == 850
  {
    Clamp(700 + accounts * 10 - openInvoices * 30, 300, 850)
  }

  /** LOW from 700 up, MEDIUM from 600 up, HIGH below. */
  function BandOf(score: int): (b: RiskBand)
    ensures b == Low <==> score >= 700
    ensures b == High <==> score < 600
  {
    if score >= 700 then Low else if score >= 600 then Medium else High
  }

  /** More accounts never lower the score; more open invoices never raise it. */
  lemma ScoreMonotone(a1: nat, a2: nat, i1: nat, i2: nat)
    requires a1 <= a2 && i2 <= i1
    ensures Score(a1, i1) <= Score(a2, i2)
  {
  }

  /** The score is the unclamped formula whenever that lies within the bounds. */
  lemma ScoreUnclamped(accounts: nat, openInvoices: nat)
    requires 300 <= 700 + accounts * 10 - openInvoices * 30 <= 850
    ensures Score(accounts, openInvoices) == 700 + accounts * 10 - openInvoices * 30
  {
  }

  /**
   * The band in terms of the counts: LOW exactly when there are at most a
   * third as many open invoices as accounts, HIGH exactly when the open
   * invoices outweigh the accounts by more than 100 points.
   */
  lemma BandByCounts(accounts: nat, openInvoices: nat)
    ensures BandOf(Score(accounts, openInvoices)) == Low <==> 3 * openInvoices <= accounts
    ensures BandOf(Score(accounts, openInvoices)) == High <==> 30 * openInvoices - 10 * accounts > 100
  {
  }
}
