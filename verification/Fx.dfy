/**
 * As-of currency conversion. Amounts are integers in units of 10^-6, rates are reals, and
 * a product is rounded to the unit the way `toFixed(6)` rounds: half away from zero.
 */
module Fx {
  import opened Basics

  datatype Disposition = Fresh | Stale | Parked
  datatype FxResult = FxResult(normalized: int, disposition: Disposition, rate: Option<real>, rateDate: Option<int>)

  /** FX_RATE of one game: currency and rate date to rate. */
  type Rates = map<(string, int), real>

  // ---- Rounding --------------------------------------------------------------

  function Round(x: real): int {
    if x >= 0.0 then (x + 0.5).Floor else -((-x + 0.5).Floor)
  }

  function MulDecimal(amount: int, rate: real): int {
    Round(amount as real * rate)
  }

  lemma {:induction false} RoundWithinHalf(x: real)
    ensures -0.5 <= Round(x) as real - x <= 0.5
  {
  }

  /** A tie goes away from zero, and negative amounts round like positive ones. */
  lemma {:induction false} RoundTiesAway(n: nat, x: real)
    ensures Round(n as real + 0.5) == n + 1 && Round(-(n as real) - 0.5) == -(n + 1)
    ensures Round(-x) == -Round(x)
    ensures Round(n as real) == n
  {
  }

  // ---- As-of lookup ----------------------------------------------------------

  function DatesUpTo(rates: Rates, currency: string, day: int): set<int> {
    set k | k in rates && k.0 == currency && k.1 <= day :: k.1
  }

  lemma {:induction false} LatestExists(dates: set<int>)
    requires dates != {}
    ensures exists d :: d in dates && forall e :: e in dates ==> e <= d
    decreases |dates|
  {
    var d := SomeDate(dates);
    var rest := dates - {d};
    if rest == {} {
      assert forall e :: e in dates ==> e == d by {
        forall e | e in dates ensures e == d { assert e in rest || e == d; }
      }
    } else {
      LatestExists(rest);
      var m :| m in rest && forall e :: e in rest ==> e <= m;
      var top := if m < d then d else m;
      forall e | e in dates ensures e <= top {
        assert e in rest || e == d;
      }
      assert top in dates;
    }
  }

  lemma SomeDate(dates: set<int>) returns (d: int)
    requires dates != {}
    ensures d in dates
  {
    assert (forall x: int :: x !in dates) ==> dates == {};
    d :| d in dates;
  }

  /** `ORDER BY rate_date DESC LIMIT 1` over the dates not after the purchase day. */
  function AsOfDate(rates: Rates, currency: string, day: int): Option<int> {
    var dates := DatesUpTo(rates, currency, day);
    if dates == {} then None
    else
      LatestExists(dates);
      var d :| d in dates && forall e :: e in dates ==> e <= d;
      Some(d)
  }

  function Normalize(rates: Rates, currency: string, amount: int, day: int, stalenessMax: int): FxResult {
    match AsOfDate(rates, currency, day)
    case None => FxResult(0, Parked, None, None)
    case Some(date) =>
      if day - date > stalenessMax then FxResult(0, Parked, None, None)
      else
        var rate := rates[(currency, date)];
        FxResult(MulDecimal(amount, rate), if date == day then Fresh else Stale, Some(rate), Some(date))
  }

  /** The rate of the latest date not after the day; parked exactly when none is recent enough. */
  lemma {:induction false} NormalizeIsAsOf(rates: Rates, currency: string, amount: int, day: int, stalenessMax: int)
    requires stalenessMax >= 0
    ensures var r := Normalize(rates, currency, amount, day, stalenessMax);
      && (r.disposition == Parked <==> forall date :: day - stalenessMax <= date <= day ==> (currency, date) !in rates)
      && (r.disposition == Fresh <==> (currency, day) in rates)
      && (r.disposition == Parked ==> r.normalized == 0)
      && (r.disposition != Parked ==>
            && r.rateDate.Some? && day - stalenessMax <= r.rateDate.value <= day
            && (forall date :: r.rateDate.value < date <= day ==> (currency, date) !in rates)
            && (currency, r.rateDate.value) in rates && r.rate == Some(rates[(currency, r.rateDate.value)])
            && -0.5 <= r.normalized as real - amount as real * r.rate.value <= 0.5)
  {
    var dates := DatesUpTo(rates, currency, day);
    forall date ensures date in dates <==> (currency, date) in rates && date <= day {
      if (currency, date) in rates && date <= day {
        var k := (currency, date);
        assert k in rates && k.0 == currency && k.1 == date;
      }
    }
    if AsOfDate(rates, currency, day).Some? {
      RoundWithinHalf(amount as real * rates[(currency, AsOfDate(rates, currency, day).value)]);
    }
  }

  /** A rate dated after the purchase day never changes its conversion. */
  lemma {:induction false} LaterRatesIrrelevant(rates: Rates, currency: string, amount: int, day: int,
                                                stalenessMax: int,
                                                newCurrency: string, newDate: int, newRate: real)
    requires newDate > day || newCurrency != currency
    ensures Normalize(rates[(newCurrency, newDate) := newRate], currency, amount, day, stalenessMax)
         == Normalize(rates, currency, amount, day, stalenessMax)
  {
    assert DatesUpTo(rates[(newCurrency, newDate) := newRate], currency, day) == DatesUpTo(rates, currency, day);
  }

  /** Rates are added, and none is changed. */
  predicate AddedTo(earlier: Rates, rates: Rates) {
    forall k :: k in earlier ==> k in rates && rates[k] == earlier[k]
  }

  /** Added rates never park a conversion; they change it exactly when one is dated after the rate it used. */
  lemma {:induction false} AddedRates(earlier: Rates, rates: Rates, currency: string, amount: int, day: int,
                                      stalenessMax: int)
    requires AddedTo(earlier, rates)
    ensures var was := Normalize(earlier, currency, amount, day, stalenessMax);
            var now := Normalize(rates, currency, amount, day, stalenessMax);
      was.disposition != Parked ==>
        && now.disposition != Parked
        && (now == was <==> forall date :: was.rateDate.value < date <= day ==> (currency, date) !in rates)
  {
    var was := Normalize(earlier, currency, amount, day, stalenessMax);
    if was.disposition != Parked {
      NormalizeIsAsOf(earlier, currency, amount, day, stalenessMax);
      NormalizeIsAsOf(rates, currency, amount, day, stalenessMax);
      var now := Normalize(rates, currency, amount, day, stalenessMax);
      assert (currency, was.rateDate.value) in rates;
      SameDateSameResult(earlier, rates, currency, amount, day, stalenessMax);
      hide Normalize;
      assert now.rateDate.value >= was.rateDate.value;
    }
  }

  lemma {:induction false} SameDateSameResult(earlier: Rates, rates: Rates, currency: string, amount: int, day: int,
                                              stalenessMax: int)
    requires AddedTo(earlier, rates)
    ensures var was := Normalize(earlier, currency, amount, day, stalenessMax);
            var now := Normalize(rates, currency, amount, day, stalenessMax);
      was.rateDate.Some? && now.rateDate == was.rateDate ==> now == was
  {
    hide MulDecimal;
  }
}
