/**
 * The two end-to-end readings of concrete wire messages: a level-one summary carrying a last trade
 * and a full quote, and a completed one-minute bar whose day is written with one digit. Each
 * message is given as its comma-joined fields.
 */
module Scenarios {
  import opened Wrappers
  import opened Text
  import opened Numbers
  import opened Timestamps
  import opened LevelOne
  import opened IntervalBars

  lemma WholeTexts()
    ensures FormatDecimal(Decimal(100, 0)) == "100"
    ensures FormatDecimal(Decimal(50, 0)) == "50"
  {
    assert NatToDigits(1) == "1";
    assert NatToDigits(5) == "5";
    assert NatToDigits(10) == "10";
    assert NatToDigits(50) == "50";
    assert NatToDigits(100) == "100";
    assert UnsignedText(100, 0) == "100";
    assert UnsignedText(50, 0) == "50";
  }

  /** A positive decimal whose digits are `whole` then `fraction` is written with the point between them. */
  lemma PointText(m: nat, scale: nat, whole: string, fraction: string)
    requires NatToDigits(m) == whole + fraction && |whole| >= 1 && |fraction| == scale >= 1
    ensures FormatDecimal(Decimal(m, scale)) == whole + "." + fraction
  {
    var digits := whole + fraction;
    assert PaddedDigits(m, scale + 1) == digits;
    assert digits[..|whole|] == whole && digits[|whole|..] == fraction;
  }

  lemma PriceTexts()
    ensures FormatDecimal(Decimal(10150, 2)) == "101.50"
    ensures FormatDecimal(Decimal(10125, 2)) == "101.25"
    ensures FormatDecimal(Decimal(10175, 2)) == "101.75"
  {
    assert NatToDigits(1) == "1";
    assert NatToDigits(10) == "10";
    assert NatToDigits(101) == "101";
    assert NatToDigits(1015) == "1015";
    assert NatToDigits(1012) == "1012";
    assert NatToDigits(1017) == "1017";
    assert NatToDigits(10150) == "10150";
    assert NatToDigits(10125) == "10125";
    assert NatToDigits(10175) == "10175";
    PointText(10150, 2, "101", "50");
    PointText(10125, 2, "101", "25");
    PointText(10175, 2, "101", "75");
  }

  lemma TickFieldsExample()
    ensures TickFields("REQ1", "AAPL", Decimal(10150, 2), Decimal(100, 0),
                       Some(Quote(Decimal(10125, 2), Decimal(50, 0))), Some(Quote(Decimal(10175, 2), Decimal(50, 0)))) + []
      == ["REQ1", "AAPL", "101.50", "100", "101.25", "50", "101.75", "50"]
  {
    WholeTexts();
    PriceTexts();
  }

  /** "REQ1,AAPL,101.50,100,101.25,50,101.75,50" reads as AAPL last 101.50 x 100, bid 101.25 x 50, ask 101.75 x 50. */
  lemma TickScenario(provider: string)
    ensures ParseMarketData(provider, Join(["REQ1", "AAPL", "101.50", "100", "101.25", "50", "101.75", "50"], ',')) ==
      Some(Tick("AAPL", provider, Decimal(10150, 2), Decimal(100, 0),
                Some(Quote(Decimal(10125, 2), Decimal(50, 0))), Some(Quote(Decimal(10175, 2), Decimal(50, 0)))))
  {
    var bid, ask := Some(Quote(Decimal(10125, 2), Decimal(50, 0))), Some(Quote(Decimal(10175, 2), Decimal(50, 0)));
    TickFieldsExample();
    assert NoneContains([], ',');
    ParseTickMessage(provider, "REQ1", "AAPL", Decimal(10150, 2), Decimal(100, 0), bid, ask, []);
  }

  lemma OpenHighTexts()
    ensures FormatDecimal(Decimal(1000, 1)) == "100.0"
    ensures FormatDecimal(Decimal(1010, 1)) == "101.0"
  {
    assert NatToDigits(1) == "1";
    assert NatToDigits(10) == "10";
    assert NatToDigits(100) == "100";
    assert NatToDigits(101) == "101";
    assert NatToDigits(1000) == "1000";
    assert NatToDigits(1010) == "1010";
    PointText(1000, 1, "100", "0");
    PointText(1010, 1, "101", "0");
  }

  lemma LowCloseTexts()
    ensures FormatDecimal(Decimal(995, 1)) == "99.5"
    ensures FormatDecimal(Decimal(1005, 1)) == "100.5"
  {
    assert NatToDigits(1) == "1";
    assert NatToDigits(9) == "9";
    assert NatToDigits(10) == "10";
    assert NatToDigits(99) == "99";
    assert NatToDigits(100) == "100";
    assert NatToDigits(995) == "995";
    assert NatToDigits(1005) == "1005";
    PointText(995, 1, "99", "5");
    PointText(1005, 1, "100", "5");
  }

  lemma VolumeText()
    ensures FormatInteger(1500) == "1500"
  {
    assert NatToDigits(1) == "1";
    assert NatToDigits(15) == "15";
    assert NatToDigits(150) == "150";
    assert NatToDigits(1500) == "1500";
  }

  lemma DateExample()
    ensures DateText(DateTime(2015, 2, 1, 9, 30, 0), 1) == "2015-02-1"
  {
    assert NatToDigits(2) == "2";
    assert NatToDigits(20) == "20";
    assert NatToDigits(201) == "201";
    assert NatToDigits(2015) == "2015";
    assert NatToDigits(1) == "1";
    assert PaddedDigits(2, 2) == "02";
  }

  lemma TimeExample()
    ensures TimeOfDay(DateTime(2015, 2, 1, 9, 30, 0)) == " 09:30:00"
  {
    assert NatToDigits(0) == "0";
    assert NatToDigits(3) == "3";
    assert NatToDigits(9) == "9";
    assert NatToDigits(30) == "30";
    assert PaddedDigits(9, 2) == "09";
    assert PaddedDigits(0, 2) == "00";
  }

  lemma BarStampText()
    ensures TimestampText(DateTime(2015, 2, 1, 9, 30, 0), 1) == "2015-02-1 09:30:00"
  {
    DateExample();
    TimeExample();
  }

  lemma BarFieldsExample(provider: string)
    ensures BarFields(Bar("AAPL", provider, "AAOOA", DateTime(2015, 2, 1, 9, 30, 0),
                          Decimal(1000, 1), Decimal(1010, 1), Decimal(995, 1), Decimal(1005, 1), 1500), "60", "0", 1) + []
      == ["AAOOA", "60", "AAPL", "2015-02-1 09:30:00", "100.0", "101.0", "99.5", "100.5", "0", "1500"]
  {
    OpenHighTexts();
    LowCloseTexts();
    VolumeText();
    BarStampText();
  }

  /**
   * "AAOOA,60,AAPL,2015-02-1 09:30:00,100.0,101.0,99.5,100.5,0,1500" reads as request AAOOA's AAPL
   * bar of 1 February 2015 09:30:00 with open 100.0, high 101.0, low 99.5, close 100.5 and volume 1500.
   */
  lemma BarScenario(provider: string)
    ensures ParseBarData(provider, Join(["AAOOA", "60", "AAPL", "2015-02-1 09:30:00", "100.0", "101.0", "99.5", "100.5", "0", "1500"], ',')) ==
      Some(Bar("AAPL", provider, "AAOOA", DateTime(2015, 2, 1, 9, 30, 0),
               Decimal(1000, 1), Decimal(1010, 1), Decimal(995, 1), Decimal(1005, 1), 1500))
  {
    var b := Bar("AAPL", provider, "AAOOA", DateTime(2015, 2, 1, 9, 30, 0),
                 Decimal(1000, 1), Decimal(1010, 1), Decimal(995, 1), Decimal(1005, 1), 1500);
    BarFieldsExample(provider);
    assert NoneContains([], ',');
    assert ValidDateTime(b.dateTime);
    ParseBarMessage(b, "60", "0", 1, []);
  }
}
