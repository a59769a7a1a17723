/**
 * FX quoting: a literal lookup in a fixed table of currency pairs, after
 * upper-casing both codes. The table is neither symmetric nor consistent
 * across pairs; rates are `int` counts of 1e-8.
 */
module Fx {
  import opened Schemas

  function UpperChar(c: char): char {
    if 'a' <= c <= 'z' then (c as int - 32) as char else c
  }

  /** The code with every ASCII lower-case letter replaced by its capital. */
  function Upper(s: string): (r: string)
    ensures |r| == |s| && IsUpper(r)
    ensures forall i :: 0 <= i < |s| && !('a' <= s[i] <= 'z') ==> r[i] == s[i]
  {
    seq(|s|, i requires 0 <= i < |s| => UpperChar(s[i]))
  }

  /** The code has no lower-case ASCII letter. */
  predicate IsUpper(s: string) {
    forall i :: 0 <= i < |s| ==> !('a' <= s[i] <= 'z')
  }

  /** Two characters are the same letter, whatever their case, or are equal. */
  predicate SameIgnoringCase(a: char, b: char) {
    a == b || ('a' <= a <= 'z' && b as int == a as int - 32) || ('a' <= b <= 'z' && a as int == b as int - 32)
  }

  /** Two codes spell the same thing up to the case of ASCII letters. */
  predicate EqualIgnoringCase(s: string, t: string) {
    |s| == |t| && forall i :: 0 <= i < |s| ==> SameIgnoringCase(s[i], t[i])
  }

  /** Upper-casing keeps the length, leaves no lower-case letter and is idempotent. */
  lemma UpperProperties(s: string)
    ensures |Upper(s)| == |s|
    ensures IsUpper(Upper(s))
    ensures Upper(Upper(s)) == Upper(s)
    ensures IsUpper(s) ==> Upper(s) == s
  {
  }

  /** Two codes upper-case to the same code exactly when they agree ignoring case. */
  lemma UpperEqualIff(s: string, t: string)
    ensures Upper(s) == Upper(t) <==> EqualIgnoringCase(s, t)
  {
    if Upper(s) == Upper(t) {
      forall i | 0 <= i < |s|
        ensures SameIgnoringCase(s[i], t[i])
      {
        assert Upper(s)[i] == Upper(t)[i];
      }
    }
    if EqualIgnoringCase(s, t) {
      assert forall i :: 0 <= i < |s| ==> Upper(s)[i] == Upper(t)[i];
    }
  }

  /** The quoted pairs and their rates in units of 1e-8. */
  const Rates: map<(string, string), int> := map[
    ("USD", "EUR") := 91000000,
    ("EUR", "USD") := 109890110,
    ("USD", "NPR") := 13400000000,
    ("NPR", "USD") := 746269,
    ("EUR", "NPR") := 14740000000,
    ("NPR", "EUR") := 678426
  ]

  /**
   * Every listed pair is listed the other way round too, and the two rates
   * are reciprocal to within one part in a million (their product, in units
   * of 1e-16, is within 1e10 of 1e16), though never exactly.
   */
  lemma RatesReciprocal()
    ensures forall p :: p in Rates ==> (p.1, p.0) in Rates
    ensures forall p :: p in Rates ==>
      && -10_000_000_000 <= Rates[p] * Rates[(p.1, p.0)] - 10_000_000_000_000_000 <= 10_000_000_000
      && Rates[p] * Rates[(p.1, p.0)] != 10_000_000_000_000_000
  {
  }

  /** `fx_quote`: the rate of the upper-cased pair, stamped with the time `now`. */
  function Quote(base: string, quote: string, now: DateTime): (r: Result<FxQuote>)
    ensures r.Ok? <==> (Upper(base), Upper(quote)) in Rates
    ensures r.Err? ==> r.error == PairUnsupported
    ensures r.Ok? ==> IsUpper(r.value.base) && IsUpper(r.value.quote) && r.value.rate > 0
    ensures r.Ok? ==>
      && r.value.base == Upper(base) && r.value.quote == Upper(quote)
      && r.value.rate == Rates[(r.value.base, r.value.quote)] && r.value.timestamp == now
  {
    var key := (Upper(base), Upper(quote));
    if key in Rates then Ok(FxQuote(key.0, key.1, Rates[key], now)) else Err(PairUnsupported)
  }

  /** A quote depends on the two codes only up to the case of their letters. */
  lemma QuoteIgnoresCase(b1: string, q1: string, b2: string, q2: string, now: DateTime)
    requires EqualIgnoringCase(b1, b2) && EqualIgnoringCase(q1, q2)
    ensures Quote(b1, q1, now) == Quote(b2, q2, now)
  {
    UpperEqualIff(b1, b2);
    UpperEqualIff(q1, q2);
  }

  /** Only the three listed currencies are quoted, never against themselves. */
  lemma QuotedPairs(base: string, quote: string, now: DateTime)
    requires Quote(base, quote, now).Ok?
    ensures Upper(base) in {"USD", "EUR", "NPR"} && Upper(quote) in {"USD", "EUR", "NPR"}
    ensures Upper(base) != Upper(quote)
  {
  }

  /** "usd"/"eur" and "USD"/"EUR" get the same quote, at 0.91000000. */
  lemma QuoteUsdEur(now: DateTime)
    ensures Quote("usd", "eur", now) == Quote("USD", "EUR", now) == Ok(FxQuote("USD", "EUR", 91000000, now))
  {
    assert Upper("usd") == "USD";
    assert Upper("eur") == "EUR";
    assert Upper("USD") == "USD";
    assert Upper("EUR") == "EUR";
  }

  /** NPR to JPY is not in the table. */
  lemma QuoteNprJpyUnsupported(now: DateTime)
    ensures Quote("NPR", "JPY", now) == Err(PairUnsupported)
  {
    assert Upper("NPR") == "NPR";
    assert Upper("JPY") == "JPY";
  }
}
