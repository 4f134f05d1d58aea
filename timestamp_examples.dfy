/** The conversions the documentation of `convert_to_ms` describes, worked out. */
module TimestampExamples {
  import opened Wrappers
  import opened PyStr
  import opened Values
  import opened Timestamp

  lemma SmallNumerals()
    ensures NatToString(0) == "0" && NatToString(1) == "1"
    ensures NatToString(30) == "30" && NatToString(500) == "500"
  {
    assert DigitChar(0) == '0' && DigitChar(1) == '1';
    assert DigitChar(3) == '3' && DigitChar(5) == '5';
    assert NatToString(50) == "50";
  }

  /** A bare number is milliseconds: "500" is 500. */
  lemma ConvertBareMilliseconds()
    ensures ConvertToMs(Str("500")) == Success(500)
  {
    assert Join(Numerals([500]), ':') == "500" by {
      SmallNumerals();
    }
    assert Weigh([500], Factors) == 500 by {
      WeighFactors(500, 0, 0, 0, 0);
    }
    ConvertJoined([500], "500", [500], 500);
  }

  /** The rightmost field is milliseconds: "1:30" is one second and 30 ms. */
  lemma ConvertSecondsAndMilliseconds()
    ensures ConvertToMs(Str("1:30")) == Success(1030)
  {
    JoinedNumerals([1, 30], "1:30");
    assert Weigh([30, 1], Factors) == 1030 by {
      WeighFactors(30, 1, 0, 0, 0);
    }
    ConvertJoined([1, 30], "1:30", [30, 1], 1030);
  }

  /** "1:30:0" is a minute and a half. */
  lemma ConvertMinuteAndAHalf()
    ensures ConvertToMs(Str("1:30:0")) == Success(90000)
  {
    JoinedNumerals([1, 30, 0], "1:30:0");
    assert Weigh([0, 30, 1], Factors) == 90000 by {
      WeighFactors(0, 30, 1, 0, 0);
    }
    ConvertJoined([1, 30, 0], "1:30:0", [0, 30, 1], 90000);
  }

  /** The numerals of a few small numbers, joined with colons. */
  lemma JoinedNumerals(ns: seq<nat>, s: string)
    requires (ns == [1, 30] && s == "1:30") || (ns == [1, 30, 0] && s == "1:30:0")
    ensures Join(Numerals(ns), ':') == s
  {
    SmallNumerals();
    assert Join(["30", "0"], ':') == "30:0" by {
      assert ["30", "0"][1..] == ["0"];
    }
    if |ns| == 2 {
      assert ["1", "30"][1..] == ["30"];
      assert Numerals(ns) == ["1", "30"];
    } else {
      assert ["1", "30", "0"][1..] == ["30", "0"];
      assert Numerals(ns) == ["1", "30", "0"];
    }
  }

  /** "1:0:0:0" is an hour. */
  lemma ConvertHour()
    ensures ConvertToMs(Str("1:0:0:0")) == Success(3600000)
  {
    JoinedZeros([1, 0, 0, 0], "1:0:0:0");
    assert Weigh([0, 0, 0, 1], Factors) == 3600000 by {
      WeighFactors(0, 0, 0, 1, 0);
    }
    ConvertJoined([1, 0, 0, 0], "1:0:0:0", [0, 0, 0, 1], 3600000);
  }

  /** A "1" followed by zero fields, joined with colons. */
  lemma JoinedZeros(ns: seq<nat>, s: string)
    requires (ns == [1, 0, 0, 0] && s == "1:0:0:0") || (ns == [1, 0, 0, 0, 0] && s == "1:0:0:0:0")
    ensures Join(Numerals(ns), ':') == s
  {
    var zeros := if |ns| == 4 then ["0", "0", "0"] else ["0", "0", "0", "0"];
    var tail := if |ns| == 4 then "0:0:0" else "0:0:0:0";
    assert Numerals(ns) == ["1"] + zeros by {
      SmallNumerals();
    }
    JoinedZeroFields(zeros, tail);
    JoinCons("1", zeros, ':');
  }

  /** Three or four "0" fields, joined with colons. */
  lemma JoinedZeroFields(zeros: seq<string>, s: string)
    requires (zeros == ["0", "0", "0"] && s == "0:0:0") || (zeros == ["0", "0", "0", "0"] && s == "0:0:0:0")
    ensures Join(zeros, ':') == s
  {
    JoinCons("0", ["0"], ':');
    JoinCons("0", ["0", "0"], ':');
    if |zeros| == 4 {
      JoinCons("0", ["0", "0", "0"], ':');
    }
  }

  lemma JoinCons(a: string, rest: seq<string>, sep: char)
    requires rest != []
    ensures Join([a] + rest, sep) == a + [sep] + Join(rest, sep)
  {
    assert ([a] + rest)[1..] == rest;
  }

  lemma ConvertJoined(ns: seq<nat>, s: string, r: seq<nat>, w: int)
    requires |ns| >= 1
    requires Join(Numerals(ns), ':') == s
    requires Reversed(ns) == r && Weigh(r, Factors) == w
    ensures ConvertToMs(Str(s)) == Success(w)
  {
    ConvertNumerals(ns);
  }

  /** A day takes all five fields: "1:0:0:0:0". */
  lemma ConvertDay()
    ensures ConvertToMs(Str("1:0:0:0:0")) == Success(86400000)
  {
    JoinedZeros([1, 0, 0, 0, 0], "1:0:0:0:0");
    assert Weigh([0, 0, 0, 0, 1], Factors) == 86400000 by {
      WeighFactors(0, 0, 0, 0, 1);
    }
    ConvertJoined([1, 0, 0, 0, 0], "1:0:0:0:0", [0, 0, 0, 0, 1], 86400000);
  }

  /** A leading zero is allowed: `int("00")` is 0. */
  lemma ParseDoubleZero()
    ensures ParseInt("00") == Some(0)
  {
    StripDigits("00");
    assert "00"[..1] == "0";
  }

  /**
   * "1:00" is one second: the field after the colon is milliseconds, not
   * seconds, so it is 1000 and not a minute.
   */
  lemma ConvertOneColonZeroZero()
    ensures ConvertToMs(Str("1:00")) == Success(1000)
  {
    SplitOneColonZeroZero();
    var r := Reversed(["1", "00"]);
    assert r == ["00", "1"];
    WeighOneColonZeroZero(r);
  }

  lemma SplitOneColonZeroZero()
    ensures Split("1:00", ':') == ["1", "00"]
  {
    assert "1:00"[1..] == ":00" && ":00"[1..] == "00";
    SplitField("00", ':');
    var rest := Split(":00", ':');
    assert rest == ["", "00"];
    assert "1:00"[0] == '1' && ['1'] + rest[0] == "1";
    assert Split("1:00", ':') == [['1'] + rest[0]] + rest[1..];
  }

  /** The fields of "1:00" right to left: 0 ms and 1 s. */
  lemma WeighOneColonZeroZero(r: seq<string>)
    requires r == ["00", "1"]
    ensures WeightedSum(r, Factors) == Success(1000)
  {
    assert r[1..] == ["1"];
    ParseDoubleZero();
    assert ParseInt("1") == Some(1) by {
      SmallNumerals();
      ParseIntOfNat(1);
    }
    WeightedSumStep(["1"], Factors[1..], 1, 0);
    WeightedSumStep(r, Factors, 0, 1000);
  }

  /** "::30" raises instead of counting its empty fields as 0. */
  lemma EmptyFieldExample()
    ensures ConvertToMs(Str("::30")).Failure?
  {
    assert Split("::30", ':') == ["", "", "30"] by {
      assert "::30"[1..] == ":30" && ":30"[1..] == "30";
      SplitField("30", ':');
    }
    ConvertStringFails("::30");
    ParseIntBlank("");
    var fields := Split("::30", ':');
    assert ParseInt(fields[1]).None?;
  }
}
