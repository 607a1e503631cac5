/** Exchange rates against the dollar, cached for five minutes, and conversions rounded to cents. */
module Fx {
  import opened Wrappers

  type Currency = string
  type Rates = map<Currency, real>
  type Time = int

  const SUPPORTED: seq<Currency> := ["USD", "BRL", "MXN", "COP", "EUR"]

  const FALLBACK_RATES: Rates := map["USD" := 1.0, "BRL" := 5.02, "MXN" := 17.43, "COP" := 4180.0, "EUR" := 0.92]

  const CACHE_TTL_MS := 300000

  ghost predicate Positive(rates: Rates) {
    forall c :: c in rates ==> rates[c] > 0.0
  }

  /** An unknown currency counts as the dollar. */
  function PerDollar(rates: Rates, c: Currency): real {
    if c in rates then rates[c] else 1.0
  }

  function GetRate(rates: Rates, source: Currency, target: Currency): real
    requires Positive(rates)
  {
    if source == target then 1.0 else PerDollar(rates, target) / PerDollar(rates, source)
  }

  /** `Math.round(x * 100) / 100` */
  function ToCents(x: real): real {
    (100.0 * x + 0.5).Floor as real / 100.0
  }

  function Scaled(amount: real, rate: real): real {
    ToCents(amount * rate)
  }

  function Convert(rates: Rates, amount: real, source: Currency, target: Currency): real
    requires Positive(rates)
  {
    Scaled(amount, GetRate(rates, source, target))
  }

  lemma Cancels(a: real, b: real, c: real)
    requires a > 0.0 && b > 0.0 && c > 0.0
    ensures (b / a) * (c / b) == c / a
  {
    var x, y := b / a, c / b;
    assert x * a == b && y * b == c;
    assert (x * y) * a == y * (x * a) == c;
  }

  lemma SelfRatio(a: real)
    requires a > 0.0
    ensures a / a == 1.0
  {
  }

  lemma RateIsRatio(rates: Rates, source: Currency, target: Currency)
    requires Positive(rates)
    ensures GetRate(rates, source, target) == PerDollar(rates, target) / PerDollar(rates, source)
    ensures PerDollar(rates, source) > 0.0
  {
    SelfRatio(PerDollar(rates, source));
  }

  /** On one table of positive rates cross rates compose, whatever the three currencies. */
  lemma RatesCompose(rates: Rates, a: Currency, b: Currency, c: Currency)
    requires Positive(rates)
    ensures GetRate(rates, a, b) * GetRate(rates, b, c) == GetRate(rates, a, c)
  {
    RateIsRatio(rates, a, b);
    RateIsRatio(rates, b, c);
    RateIsRatio(rates, a, c);
    RateIsRatio(rates, c, c);
    Cancels(PerDollar(rates, a), PerDollar(rates, b), PerDollar(rates, c));
  }

  /** Rates are units of a currency for one dollar: from the dollar a currency costs its rate, to the dollar
      the inverse, and a currency without a rate counts as the dollar. */
  lemma DollarRates(rates: Rates, c: Currency)
    requires Positive(rates) && "USD" in rates && rates["USD"] == 1.0
    ensures c in rates ==> GetRate(rates, "USD", c) == rates[c] && GetRate(rates, c, "USD") * rates[c] == 1.0
    ensures c !in rates ==> GetRate(rates, "USD", c) == 1.0
  {
    RateIsRatio(rates, "USD", c);
    RateIsRatio(rates, c, "USD");
  }

  /** Rounding moves an amount by at most half a cent. */
  lemma HalfACent(x: real)
    ensures -0.005 <= ToCents(x) - x <= 0.005
  {
    var n := (100.0 * x + 0.5).Floor as real;
    assert n <= 100.0 * x + 0.5 < n + 1.0;
    Hundredth(n, x);
  }

  /** So every conversion is within half a cent of the exact product. */
  lemma ConvertsWithinHalfACent(rates: Rates, amount: real, source: Currency, target: Currency)
    requires Positive(rates)
    ensures -0.005 <= Convert(rates, amount, source, target) - amount * GetRate(rates, source, target) <= 0.005
  {
    HalfACent(amount * GetRate(rates, source, target));
  }

  lemma Hundredth(n: real, x: real)
    requires -0.5 <= n - 100.0 * x <= 0.5
    ensures -0.005 <= n / 100.0 - x <= 0.005
  {
  }

  lemma ScaledBound(e: real, bound: real, rate: real)
    requires -bound <= e <= bound && rate > 0.0
    ensures -(bound / rate) <= e / rate <= bound / rate
  {
    var q, b := e / rate, bound / rate;
    assert q * rate == e && b * rate == bound;
    assert (b - q) * rate >= 0.0 && (b + q) * rate >= 0.0;
    SignOfQuotient(b - q, rate);
    SignOfQuotient(b + q, rate);
  }

  lemma SignOfQuotient(q: real, rate: real)
    requires rate > 0.0 && q * rate >= 0.0
    ensures q >= 0.0
  {
    assert q * rate / rate == q;
  }

  lemma BackRate(rates: Rates, a: Currency, b: Currency)
    requires Positive(rates)
    ensures GetRate(rates, a, b) > 0.0 && GetRate(rates, a, b) * GetRate(rates, b, a) == 1.0
  {
    RatesCompose(rates, a, b, a);
    RateIsRatio(rates, a, b);
    RateIsRatio(rates, b, a);
    QuotientPositive(PerDollar(rates, b), PerDollar(rates, a));
  }

  lemma QuotientPositive(a: real, b: real)
    requires a > 0.0 && b > 0.0
    ensures a / b > 0.0
  {
    var q := a / b;
    assert q * b == a;
    SignOfQuotient(q, b);
    assert q != 0.0;
  }

  /** `back` is within 0.005 / rate + 0.005 of `amount`. */
  predicate DriftsLittle(back: real, amount: real, rate: real) {
    rate > 0.0 && -(0.005 / rate + 0.005) <= back - amount <= 0.005 / rate + 0.005
  }

  lemma Drift(amount: real, rate: real, inverse: real)
    requires rate > 0.0 && rate * inverse == 1.0
    ensures DriftsLittle(Scaled(Scaled(amount, rate), inverse), amount, rate)
  {
    var there := ToCents(amount * rate);
    HalfACent(amount * rate);
    HalfACent(there * inverse);
    ScaledBound(there - amount * rate, 0.005, rate);
    Undo(amount, rate, inverse, there);
    SumOfBounds(ToCents(there * inverse) - there * inverse, there * inverse - amount, 0.005, 0.005 / rate);
  }

  /** Converting there and back at rate r drifts by at most 0.005 / r + 0.005. */
  lemma ThereAndBack(rates: Rates, amount: real, a: Currency, b: Currency)
    requires Positive(rates)
    ensures DriftsLittle(Convert(rates, Convert(rates, amount, a, b), b, a), amount, GetRate(rates, a, b))
  {
    var rate, inverse := GetRate(rates, a, b), GetRate(rates, b, a);
    BackRate(rates, a, b);
    Drift(amount, rate, inverse);
    assert Convert(rates, amount, a, b) == Scaled(amount, rate);
    assert Convert(rates, Scaled(amount, rate), b, a) == Scaled(Scaled(amount, rate), inverse);
  }

  lemma SumOfBounds(x: real, y: real, b: real, c: real)
    requires -b <= x <= b && -c <= y <= c
    ensures -(c + b) <= x + y <= c + b
  {
  }

  lemma Undo(amount: real, rate: real, inverse: real, there: real)
    requires rate > 0.0 && rate * inverse == 1.0
    ensures there * inverse - amount == (there - amount * rate) / rate
  {
    var e := there - amount * rate;
    assert e * inverse == there * inverse - amount * (rate * inverse);
    assert (e * inverse) * rate == e * (inverse * rate) == e;
    assert e * inverse == ((e * inverse) * rate) / rate;
  }

  // ---------- the cache ----------

  datatype Fetched = Rates(rates: Rates) | Failed

  function Merged(fetched: Rates): Rates {
    map c | c in FALLBACK_RATES :: if c in fetched then fetched[c] else FALLBACK_RATES[c]
  }

  /** Five currencies, each at the fetched rate or, where none was fetched, at its built-in one; so they are
      positive exactly if those fetched are. */
  lemma MergedRates(fetched: Rates, c: Currency)
    ensures Merged(fetched).Keys == {"USD", "BRL", "MXN", "COP", "EUR"}
    ensures c in Merged(fetched) ==>
      Merged(fetched)[c] == if c in fetched then fetched[c]
                            else map["USD" := 1.0, "BRL" := 5.02, "MXN" := 17.43, "COP" := 4180.0, "EUR" := 0.92][c]
    ensures Positive(Merged(fetched)) <==> forall k :: k in Merged(fetched) && k in fetched ==> fetched[k] > 0.0
  {
    assert Merged(fetched).Keys == FALLBACK_RATES.Keys;
  }

  datatype Cache = Cache(fetchedAt: Time, rates: Rates)

  class FxService {
    const appId: Option<string>
    var cache: Option<Cache>

    constructor (appId: Option<string>)
      ensures this.appId == appId && cache == None
    {
      this.appId := appId;
      cache := None;
    }

    predicate Configured() {
      appId.Some? && appId.value != ""
    }

    predicate Fresh(now: Time)
      reads this
    {
      cache.Some? && now - cache.value.fetchedAt < CACHE_TTL_MS
    }

    /** `response` stands for what the rate service would answer now. A failed fetch falls back to
        the cached rates, however old, and leaves the cache to be retried. */
    method GetRates(now: Time, response: Fetched) returns (rates: Rates)
      modifies this
      ensures old(Fresh(now)) <==> old(cache).Some? && now - old(cache).value.fetchedAt < 300000
      ensures old(Fresh(now)) ==> rates == old(cache).value.rates && cache == old(cache)
      ensures !old(Fresh(now)) && !Configured() ==> rates == FALLBACK_RATES && cache == old(cache)
      ensures !old(Fresh(now)) && Configured() && response.Rates? ==>
        rates == Merged(response.rates) && cache == Some(Cache(now, rates))
      ensures !old(Fresh(now)) && Configured() && response.Failed? ==>
        cache == old(cache) && rates == if cache.Some? then cache.value.rates else FALLBACK_RATES
    {
      if cache.Some? && now - cache.value.fetchedAt < CACHE_TTL_MS {
        return cache.value.rates;
      }
      if appId.None? || appId.value == "" {
        return FALLBACK_RATES;
      }
      if response.Failed? {
        return if cache.Some? then cache.value.rates else FALLBACK_RATES;
      }
      rates := FALLBACK_RATES;
      for i := 0 to |SUPPORTED|
        invariant rates.Keys == FALLBACK_RATES.Keys
        invariant forall c :: c in FALLBACK_RATES ==>
          rates[c] == if c in SUPPORTED[..i] && c in response.rates then response.rates[c] else FALLBACK_RATES[c]
      {
        if SUPPORTED[i] in response.rates {
          rates := rates[SUPPORTED[i] := response.rates[SUPPORTED[i]]];
        }
      }
      assert forall c :: c in FALLBACK_RATES ==> c in SUPPORTED;
      assert SUPPORTED[..|SUPPORTED|] == SUPPORTED;
      assert rates == Merged(response.rates);
      cache := Some(Cache(now, rates));
    }

    method InvalidateCache()
      modifies this
      ensures cache == None
    {
      cache := None;
    }
  }
}
