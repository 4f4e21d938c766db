/**
 * The price-deviation core of alerts/alerts.py: list casting, ticker symbol
 * validation against a list of supported symbols, mean and sample standard
 * deviation of the last 24 hours of price changes, the percent change of the
 * current price against the mean, and the rule that flags a current price
 * more than one standard deviation away from the mean.
 *
 * Prices are exact reals. The standard deviation is never taken: the rule
 * compares the square of the distance with the sample variance, which is
 * the same comparison (see DeviatedIffBeyondStdev).
 */
module Alerts {
  import opened Builtins
  import opened Statistics

  const NotAStringMessage := "Ticker symbol provided is not a string"
  const HasDigitsMessage := "Ticker symbol provided should not have numbers in it"

  /** Where a value refused by `float(...)` came from. */
  datatype Origin = DayChange(index: nat) | CurrentPrice

  /** The exceptions that leave the core: the `SystemExit` of symbol
      validation, the error `float(...)` raises on a value it cannot
      convert, and the `StatisticsError` of too short a series. */
  datatype Error =
    | SystemExit(message: string)
    | NotNumeric(origin: Origin)
    | StatisticsError

  /** The tuple `price_deviation` returns: the flag, then the mean, the
      distance of the current price from it and the percent change, each
      rounded to two decimals. */
  datatype Deviation = Deviation(deviated: bool, average: real, change: real, percent: real)

  /** `cast_list(func, data)`: `func` applied to every element, in order. */
  function CastList<A, B>(func: A -> B, data: seq<A>): (r: seq<B>)
    ensures |r| == |data|
    ensures forall i :: 0 <= i < |data| ==> r[i] == func(data[i])
  {
    if |data| == 0 then [] else [func(data[0])] + CastList(func, data[1..])
  }

  /** Forcing a lazily mapped list of conversions, as `list(map(...))` does:
      every value when all conversions succeed, otherwise the position of
      the first conversion that raised. */
  function Gather<T>(opts: seq<Option<T>>): (r: Result<seq<T>, nat>)
    ensures r.Success? <==> forall i :: 0 <= i < |opts| ==> opts[i].Some?
    ensures r.Success? ==> |r.value| == |opts|
    ensures r.Success? ==> forall i :: 0 <= i < |opts| ==> opts[i] == Some(r.value[i])
    ensures r.Failure? ==> r.error < |opts| && opts[r.error].None?
    ensures r.Failure? ==> forall j :: 0 <= j < r.error ==> opts[j].Some?
  {
    if |opts| == 0 then Success([])
    else
      match opts[0]
      case None => Failure(0)
      case Some(x) =>
        match Gather(opts[1..])
        case Failure(i) => Failure(i + 1)
        case Success(xs) => Success([x] + xs)
  }

  /** Every value of the list is accepted by `float(...)`. */
  predicate AllNumeric(parseFloat: string -> Option<real>, data: seq<PyValue>)
  {
    forall i :: 0 <= i < |data| ==> ToFloat(parseFloat, data[i]).Some?
  }

  /** `cast_list_float(data)`, that is `cast_list(float, data)`. */
  function CastListFloat(parseFloat: string -> Option<real>, data: seq<PyValue>): (r: Result<seq<real>, nat>)
    ensures r.Success? <==> AllNumeric(parseFloat, data)
    ensures r.Success? ==> |r.value| == |data|
    ensures r.Success? ==> forall i :: 0 <= i < |data| ==> ToFloat(parseFloat, data[i]) == Some(r.value[i])
    ensures r.Failure? ==> r.error < |data| && ToFloat(parseFloat, data[r.error]).None?
    ensures r.Failure? ==> forall j :: 0 <= j < r.error ==> ToFloat(parseFloat, data[j]).Some?
  {
    Gather(CastList(v => ToFloat(parseFloat, v), data))
  }

  /** `symbols_exists(symbol)`, with the list of supported symbols that the
      source fetches over HTTP passed in as `supported`. */
  function SymbolsExists(symbol: PyValue, supported: seq<string>): (r: Result<bool, Error>)
    ensures !symbol.PyStr? ==> r == Failure(SystemExit(NotAStringMessage))
    ensures symbol.PyStr? && (exists i :: 0 <= i < |symbol.text| && IsDigit(symbol.text[i]))
      ==> r == Failure(SystemExit(HasDigitsMessage))
    ensures symbol.PyStr? && (forall i :: 0 <= i < |symbol.text| ==> !IsDigit(symbol.text[i]))
      ==> r == Success(symbol.text in supported)
  {
    if !symbol.PyStr? then
      Failure(SystemExit(NotAStringMessage))
    else if Any(CastList(IsDigit, symbol.text)) then
      Failure(SystemExit(HasDigitsMessage))
    else
      Success(Count(supported, symbol.text) > 0)
  }

  /** A symbol that is rejected is rejected before the list of supported
      symbols is consulted: the outcome does not depend on that list. */
  lemma RejectionIgnoresSymbolList(symbol: PyValue, supported: seq<string>, other: seq<string>)
    requires SymbolsExists(symbol, supported).Failure?
    ensures SymbolsExists(symbol, other) == SymbolsExists(symbol, supported)
  {
  }

  /** `calculate_mean(day_changes)`: `statistics.mean`, which raises on an
      empty series. */
  function CalculateMean(dayChanges: seq<real>): (r: Result<real, Error>)
    ensures r.Failure? <==> |dayChanges| == 0
    ensures r.Failure? ==> r.error == StatisticsError
    ensures r.Success? ==> r.value * |dayChanges| as real == Sum(dayChanges)
  {
    if |dayChanges| == 0 then Failure(StatisticsError) else Success(Mean(dayChanges))
  }

  /** `calculate_stdev(day_changes)` before its square root: the sample
      variance, which `statistics.stdev` refuses for fewer than two points. */
  function CalculateVariance(dayChanges: seq<real>): (r: Result<real, Error>)
    ensures r.Failure? <==> |dayChanges| < 2
    ensures r.Failure? ==> r.error == StatisticsError
    ensures r.Success? ==> r.value >= 0.0
    ensures r.Success? ==> r.value * (|dayChanges| - 1) as real == SumSqDev(dayChanges, Mean(dayChanges))
  {
    if |dayChanges| < 2 then Failure(StatisticsError) else Success(SampleVariance(dayChanges))
  }

  /** |x / a| * |a| == |x| for a non-zero `a`. */
  lemma AbsQuotient(x: real, a: real)
    requires a != 0.0
    ensures Abs(x / a) * Abs(a) == Abs(x)
  {
    var q := x / a;
    assert q * a == x;
    if a < 0.0 {
      assert Abs(q) * Abs(a) == -(q * a) || Abs(q) * Abs(a) == q * a;
    }
  }

  /** `calc_percent_change(current, average)`: 100 for equal values, 0 for
      a zero average, otherwise the distance as a percentage of |average|. */
  function PercentChange(current: real, average: real): (r: real)
    ensures r >= 0.0
    ensures current == average ==> r == 100.0
    ensures current != average && average == 0.0 ==> r == 0.0
    ensures current != average && average != 0.0 ==> r * Abs(average) == Abs(current - average) * 100.0
  {
    if current == average then 100.0
    else if average == 0.0 then 0.0
    else
      AbsQuotient(current - average, average);
      Abs((current - average) / average) * 100.0
  }

  /** The percent change is zero exactly in the zero-average case. */
  lemma PercentChangeZero(current: real, average: real)
    ensures PercentChange(current, average) == 0.0 <==> average == 0.0 && current != 0.0
  {
    var r := PercentChange(current, average);
    if current != average && average != 0.0 {
      assert r * Abs(average) > 0.0;
    }
  }

  /** A current price of zero reports the same 100.0 as a current price equal
      to the average, so the percentage alone cannot tell these apart. */
  lemma PercentChangeHundredAtZero(average: real)
    requires average != 0.0
    ensures PercentChange(0.0, average) == PercentChange(average, average) == 100.0
  {
    assert average / average == 1.0;
    assert (0.0 - average) / average == -(average / average);
  }

  /** Lines 159-168 of `price_deviation`, on values already converted by
      `float(...)`: the standard deviation first (so a series of fewer than
      two points raises), then the mean, the distance, the percent change and
      the flag. */
  function Evaluate(current: real, dayChanges: seq<real>): (r: Result<Deviation, Error>)
    ensures r.Failure? <==> |dayChanges| < 2
    ensures r.Failure? ==> r.error == StatisticsError
    ensures r.Success? ==>
      (r.value.deviated <==> Square(Abs(current - Mean(dayChanges))) > SampleVariance(dayChanges))
    ensures r.Success? ==>
      && r.value.average == Round2(Mean(dayChanges))
      && r.value.change == Round2(Abs(current - Mean(dayChanges)))
      && r.value.percent == Round2(PercentChange(current, Mean(dayChanges)))
  {
    match CalculateVariance(dayChanges)
    case Failure(e) => Failure(e)
    case Success(variance) =>
      match CalculateMean(dayChanges)
      case Failure(e) => Failure(e)
      case Success(average) =>
        var change := Abs(current - average);
        var percent := Round2(PercentChange(current, average));
        Success(Deviation(Square(change) > variance, Round2(average), Round2(change), percent))
  }

  /** `price_deviation(current_price, day_changes)`: the day changes are
      converted first, then the current price, then Evaluate runs; the first
      failure is the one reported. */
  function PriceDeviation(parseFloat: string -> Option<real>, currentPrice: PyValue, dayChanges: seq<PyValue>)
    : (r: Result<Deviation, Error>)
    ensures !AllNumeric(parseFloat, dayChanges) ==>
      exists i :: 0 <= i < |dayChanges| && r == Failure(NotNumeric(DayChange(i)))
        && ToFloat(parseFloat, dayChanges[i]).None?
        && forall j :: 0 <= j < i ==> ToFloat(parseFloat, dayChanges[j]).Some?
    ensures AllNumeric(parseFloat, dayChanges) && ToFloat(parseFloat, currentPrice).None? ==>
      r == Failure(NotNumeric(CurrentPrice))
    ensures AllNumeric(parseFloat, dayChanges) && ToFloat(parseFloat, currentPrice).Some? && |dayChanges| < 2 ==>
      r == Failure(StatisticsError)
    ensures r.Success? <==>
      AllNumeric(parseFloat, dayChanges) && ToFloat(parseFloat, currentPrice).Some? && |dayChanges| >= 2
    ensures r.Success? ==>
      r == Evaluate(ToFloat(parseFloat, currentPrice).value, CastListFloat(parseFloat, dayChanges).value)
  {
    match CastListFloat(parseFloat, dayChanges)
    case Failure(i) => Failure(NotNumeric(DayChange(i)))
    case Success(values) =>
      match ToFloat(parseFloat, currentPrice)
      case None => Failure(NotNumeric(CurrentPrice))
      case Some(current) => Evaluate(current, values)
  }

  /** The flag is the source's own test `change > stdev`: for the sample
      standard deviation `sd` of the series, the price deviates exactly when
      it lies more than `sd` away from the mean. */
  lemma DeviatedIffBeyondStdev(current: real, dayChanges: seq<real>, sd: real)
    requires |dayChanges| >= 2
    requires IsSampleStdev(sd, dayChanges)
    ensures Evaluate(current, dayChanges).Success?
    ensures Evaluate(current, dayChanges).value.deviated <==> Abs(current - Mean(dayChanges)) > sd
  {
    SquareMonotone(Abs(current - Mean(dayChanges)), sd);
  }

  /** Only the flag depends on the spread of the series: two series with the
      same mean report the same average, change and percent. */
  lemma FiguresIgnoreSpread(current: real, xs: seq<real>, ys: seq<real>)
    requires |xs| >= 2 && |ys| >= 2
    requires Mean(xs) == Mean(ys)
    ensures Evaluate(current, xs).value.average == Evaluate(current, ys).value.average
    ensures Evaluate(current, xs).value.change == Evaluate(current, ys).value.change
    ensures Evaluate(current, xs).value.percent == Evaluate(current, ys).value.percent
  {
  }

  /** A price farther from the mean than a deviating price deviates too. */
  lemma DeviationMonotone(near: real, far: real, dayChanges: seq<real>)
    requires |dayChanges| >= 2
    requires Abs(near - Mean(dayChanges)) <= Abs(far - Mean(dayChanges))
    requires Evaluate(near, dayChanges).value.deviated
    ensures Evaluate(far, dayChanges).value.deviated
  {
    SquareMonotone(Abs(near - Mean(dayChanges)), Abs(far - Mean(dayChanges)));
  }

  /** A price equal to the mean never deviates and reports a percent change
      of 100. */
  lemma AtMeanNoDeviation(dayChanges: seq<real>)
    requires |dayChanges| >= 2
    ensures !Evaluate(Mean(dayChanges), dayChanges).value.deviated
    ensures Evaluate(Mean(dayChanges), dayChanges).value.percent == 100.0
    ensures Evaluate(Mean(dayChanges), dayChanges).value.change == 0.0
  {
    assert Square(Abs(0.0)) == 0.0;
  }

  /** Over a constant series every price other than that constant deviates. */
  lemma ConstantSeriesDeviation(current: real, dayChanges: seq<real>)
    requires |dayChanges| >= 2
    requires forall i :: 0 <= i < |dayChanges| ==> dayChanges[i] == dayChanges[0]
    ensures Evaluate(current, dayChanges).value.deviated <==> current != dayChanges[0]
  {
    VarianceZero(dayChanges);
    MeanBounds(dayChanges, dayChanges[0], dayChanges[0]);
    if current != dayChanges[0] {
      SquarePositive(Abs(current - dayChanges[0]));
    }
  }
}
