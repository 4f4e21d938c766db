/**
 * The values that tests/test_alerts.py checks, and a worked example of
 * `price_deviation` (alerts/alerts.py:145-168), as lemmas about the model.
 */
module AlertsTests {
  import opened Builtins
  import opened Statistics
  import opened Alerts

  const TestData: seq<real> := [1.0, 2.0, 3.0, 4.0, 5.0]
  const TestData2: seq<real> := [1.23, 3.45, 6.54, 10.2]

  lemma MeanOfTestData()
    ensures Mean(TestData) == 3.0
    ensures CalculateMean(TestData) == Success(3.0)
  {
    assert Sum(TestData) == 15.0;
  }

  lemma MeanOfTestData2()
    ensures Mean(TestData2) == 5.355
  {
    assert Sum(TestData2) == 21.42;
  }

  lemma VarianceOfTestData()
    ensures SampleVariance(TestData) == 2.5
  {
    MeanOfTestData();
    assert SumSqDev(TestData, 3.0) == 10.0;
  }

  lemma VarianceOfTestData2()
    ensures SampleVariance(TestData2) == 15.1743
  {
    MeanOfTestData2();
    assert SumSqDev(TestData2, 5.355) == 45.5229;
  }

  /** round(stdev([1, 2, 3, 4, 5]), 3) == 1.581 */
  lemma StdevOfTestData(sd: real)
    requires IsSampleStdev(sd, TestData)
    ensures 1.5805 < sd < 1.5815
  {
    VarianceOfTestData();
    // 1.5805 itself would round down to the even 1.580; its square is not 2.5.
    assert Square(1.5805) == 2.49798025;
    SquareMonotone(1.5805, sd);
    SquareMonotone(1.5815, sd);
  }

  /** round(stdev([1.23, 3.45, 6.54, 10.2]), 3) == 3.895 */
  lemma StdevOfTestData2(sd: real)
    requires IsSampleStdev(sd, TestData2)
    ensures 3.8945 < sd < 3.8955
  {
    VarianceOfTestData2();
    // 3.8945 itself would round down to the even 3.894; its square is not 15.1743.
    assert Square(3.8945) == 15.16713025;
    SquareMonotone(3.8945, sd);
    SquareMonotone(3.8955, sd);
  }

  /** "us2", 123 and [123] are refused with the messages the tests expect,
      whatever the exchange lists. */
  lemma SymbolRejections(supported: seq<string>)
    ensures SymbolsExists(PyStr("us2"), supported)
         == Failure(SystemExit("Ticker symbol provided should not have numbers in it"))
    ensures SymbolsExists(PyInt(123), supported)
         == Failure(SystemExit("Ticker symbol provided is not a string"))
    ensures SymbolsExists(PyList([PyInt(123)]), supported)
         == Failure(SystemExit("Ticker symbol provided is not a string"))
  {
    assert IsDigit("us2"[2]);
  }

  /** "btcusd" is found when the exchange lists it, "usd" is not found when
      the exchange does not. */
  lemma SymbolLookups(supported: seq<string>)
    requires "btcusd" in supported && "usd" !in supported
    ensures SymbolsExists(PyStr("btcusd"), supported) == Success(true)
    ensures SymbolsExists(PyStr("usd"), supported) == Success(false)
  {
  }

  /** cast_list_float(TEST_DATA) == TEST_FLOAT_DATA and
      cast_list_float(TEST_DATA_2) == TEST_DATA_2. */
  lemma CastListFloatOfNumbers(parseFloat: string -> Option<real>)
    ensures CastListFloat(parseFloat, [PyInt(1), PyInt(2), PyInt(3), PyInt(4), PyInt(5)])
         == Success(TestData)
    ensures CastListFloat(parseFloat, [PyFloat(1.23), PyFloat(3.45), PyFloat(6.54), PyFloat(10.2)])
         == Success(TestData2)
  {
    var ints := [PyInt(1), PyInt(2), PyInt(3), PyInt(4), PyInt(5)];
    var r := CastListFloat(parseFloat, ints);
    assert AllNumeric(parseFloat, ints);
    assert r.value == TestData by {
      forall i | 0 <= i < 5 ensures r.value[i] == TestData[i] {
        assert ToFloat(parseFloat, ints[i]) == Some(r.value[i]);
      }
    }
    var floats := [PyFloat(1.23), PyFloat(3.45), PyFloat(6.54), PyFloat(10.2)];
    var r2 := CastListFloat(parseFloat, floats);
    assert AllNumeric(parseFloat, floats);
    assert r2.value == TestData2 by {
      forall i | 0 <= i < 4 ensures r2.value[i] == TestData2[i] {
        assert ToFloat(parseFloat, floats[i]) == Some(r2.value[i]);
      }
    }
  }

  /** A value `float(...)` refuses stops the conversion at its position, so
      a later unconvertible value and the current price are never looked at. */
  lemma FirstUnconvertibleChangeReported(parseFloat: string -> Option<real>, currentPrice: PyValue)
    ensures PriceDeviation(parseFloat, currentPrice, [PyInt(1), PyNone, PyList([])])
         == Failure(NotNumeric(DayChange(1)))
  {
  }

  /** A current price of 10 against [1, 2, 3, 4, 5]: mean 3, change 7,
      percent 233.33, and 7 is beyond the standard deviation. */
  lemma WorkedExample()
    ensures Evaluate(10.0, TestData) == Success(Deviation(true, 3.0, 7.0, 233.33))
  {
    MeanOfTestData();
    VarianceOfTestData();
    assert PercentChange(10.0, 3.0) == 700.0 / 3.0;
  }

  /** A single point has no sample standard deviation. */
  lemma SinglePointRefused(current: real, x: real)
    ensures Evaluate(current, [x]) == Failure(StatisticsError)
  {
  }
}
