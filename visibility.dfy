/** `visibility_code` of `weathercodes.py`: a visibility in metres as the
    two-digit step code of WMO code table 4377 (section 12.2.1.3 of the WMO
    Manual on Codes, Volume I.1). */
module Visibility {
  import opened Builtins

  /** `round(visibility*0.01, 0)`: a visibility in metres (a float in the
      source) in hundreds of metres. */
  function Hectometres(v: real): int {
    RoundHalfEven(v * 0.01)
  }

  /** `visibility_code(visibility)` as written. Past 5.5 km the code rounds
      the visibility in metres (not kilometres) and compares it with 30 and
      then with 14 fifths; both comparisons would end in `'%02d' % vv + 50`,
      a str + int TypeError, but neither is ever true there. */
  function VisibilityCode(v: real): (r: Result<string>)
    ensures r.Ok?
    ensures Hectometres(v) > 55 ==> r == Ok("89")
  {
    var vv := Hectometres(v);
    if vv <= 50 then Ok(Format02d(vv))
    else if vv <= 55 then Ok("50")
    else
      assert RoundHalfEven(v) > 30 && RoundHalfEven(v / 5.0) > 14 by {
        assert v * 0.01 >= 55.5;
        RoundHalfEvenMonotone(31.0, v);
        RoundHalfEvenMonotone(15.0, v / 5.0);
      }
      var m := RoundHalfEven(v);
      if m <= 30 then Err(TypeError)
      else
        var f := RoundHalfEven(v / 5.0);
        if f <= 14 then Err(TypeError)
        else Ok("89")
  }

  /** Up to 5 km the code is the visibility in hundreds of metres, from 5.1
      to 5.5 km it is `50`, and every longer visibility gives `89`. */
  lemma VisibilityCodeAsWritten(v: real)
    ensures VisibilityCode(v).Ok?
    ensures Hectometres(v) <= 50 ==> VisibilityCode(v) == Ok(Format02d(Hectometres(v)))
    ensures 50 < Hectometres(v) <= 55 ==> VisibilityCode(v) == Ok("50")
    ensures Hectometres(v) > 55 ==> VisibilityCode(v) == Ok("89")
  {
  }

  /** The thresholds in metres: 5050 m is still code 50 (a tie, rounded to
      even), 5549 m too, 5550 m already 89. */
  lemma VisibilityCodeExamples()
    ensures VisibilityCode(5000.0) == Ok("50") && VisibilityCode(5300.0) == Ok("50")
    ensures VisibilityCode(5050.0) == Ok("50") && VisibilityCode(5549.0) == Ok("50")
    ensures VisibilityCode(5550.0) == Ok("89")
    ensures VisibilityCode(10000.0) == Ok("89") && VisibilityCode(100000.0) == Ok("89")
    ensures VisibilityCode(1200.0) == Ok("12") && VisibilityCode(40.0) == Ok("00")
  {
    VisibilityCodeAsWritten(5550.0);
    VisibilityCodeAsWritten(10000.0);
    VisibilityCodeAsWritten(100000.0);
    assert Hectometres(5000.0) == 50;
    assert Hectometres(5050.0) == 50;
    assert Hectometres(5549.0) == 55;
    assert Hectometres(5550.0) == 56;
    assert Hectometres(1200.0) == 12;
    assert Hectometres(40.0) == 0;
    assert Format02d(50) == "50" by {
      assert NatToString(5) == "5";
    }
    assert Format02d(12) == "12" by {
      assert NatToString(1) == "1";
    }
    assert Format02d(0) == "00";
  }

  // ------------------------------------------------------------ WMO 4377

  /** The step number table 4377 assigns: hundreds of metres up to 5 km
      (5.1 to 5.5 km folded into 50), whole kilometres plus 50 up to 30 km,
      fifths of kilometres plus 74 up to 70 km, and 89 beyond. */
  function VisibilityNumber(v: real): int {
    StepNumber(Hectometres(v), RoundHalfEven(v / 1000.0), RoundHalfEven(v / 5000.0))
  }

  /** The step for `h` hundreds of metres, `k` kilometres and `f` fifths of
      kilometres, each already rounded. */
  function StepNumber(h: int, k: int, f: int): int {
    if h <= 50 then h
    else if h <= 55 then 50
    else if k <= 30 then k + 50
    else if f <= 14 then f + 74 else 89
  }

  /** `visibility_code` with the kilometre steps table 4377 defines: for a
      visibility that is not negative, two digits that read back as the
      step number, which lies in 0..89 and is never one of 51..55. */
  function VisibilityCodeWmo(v: real): (s: string)
    ensures v >= 0.0 ==> |s| == 2 && IsDigits(s) && ParseInt(s) == Ok(VisibilityNumber(v))
    ensures v >= 0.0 ==> var n := VisibilityNumber(v); n <= 89 && !(51 <= n <= 55)
  {
    var n := VisibilityNumber(v);
    assert v >= 0.0 ==> 0 <= n <= 89 && !(51 <= n <= 55) && |Format02d(n)| == 2 &&
                        IsDigits(Format02d(n)) && ParseInt(Format02d(n)) == Ok(n) by {
      if v >= 0.0 {
        VisibilityNumberRange(v);
        Format02dTwoDigits(n);
      }
    }
    Format02d(n)
  }

  /** For visibilities that are not negative the step number lies in 0..89,
      never in the unused 51..55. */
  lemma VisibilityNumberRange(v: real)
    requires v >= 0.0
    ensures 0 <= VisibilityNumber(v) <= 89
    ensures !(51 <= VisibilityNumber(v) <= 55)
  {
    RoundHalfEvenMonotone(0.0, v * 0.01);
    Zones(v);
  }

  /** Past 5.5 km the kilometres round to at least 6, and past 30.5 km the
      fifths of kilometres round to at least 6: each branch of the table
      starts above where the one before it ends. */
  lemma Zones(v: real)
    ensures Hectometres(v) > 55 ==> RoundHalfEven(v / 1000.0) >= 6
    ensures RoundHalfEven(v / 1000.0) > 30 ==> RoundHalfEven(v / 5000.0) >= 6
  {
    if Hectometres(v) > 55 {
      assert v * 0.01 >= 55.5;
      RoundHalfEvenMonotone(5.5, v / 1000.0);
    }
    if RoundHalfEven(v / 1000.0) > 30 {
      assert v / 1000.0 >= 30.5;
      RoundHalfEvenMonotone(6.1, v / 5000.0);
    }
  }

  /** The step number never decreases as the visibility grows. */
  lemma VisibilityNumberMonotone(v: real, w: real)
    requires 0.0 <= v <= w
    ensures VisibilityNumber(v) <= VisibilityNumber(w)
  {
    RoundHalfEvenMonotone(v * 0.01, w * 0.01);
    RoundHalfEvenMonotone(v / 1000.0, w / 1000.0);
    RoundHalfEvenMonotone(v / 5000.0, w / 5000.0);
    Zones(w);
    StepMonotone(Hectometres(v), RoundHalfEven(v / 1000.0), RoundHalfEven(v / 5000.0),
                 Hectometres(w), RoundHalfEven(w / 1000.0), RoundHalfEven(w / 5000.0));
  }

  lemma StepMonotone(h: int, k: int, f: int, h': int, k': int, f': int)
    requires h <= h' && k <= k' && f <= f'
    requires h' > 55 ==> k' >= 6
    requires k' > 30 ==> f' >= 6
    ensures StepNumber(h, k, f) <= StepNumber(h', k', f')
  {
  }

  /** Where the written code answers up to 5.5 km it agrees with table 4377;
      at 10 km it answers 89 where the table has 60. */
  lemma VisibilityCodeDiscrepancy(v: real)
    requires Hectometres(v) <= 55
    ensures VisibilityCode(v) == Ok(VisibilityCodeWmo(v))
    ensures VisibilityCode(10000.0) == Ok("89") && VisibilityCodeWmo(10000.0) == "60"
  {
    VisibilityCodeAsWritten(10000.0);
    assert Format02d(50) == "50" by {
      assert NatToString(5) == "5";
    }
    assert Hectometres(10000.0) == 100;
    assert RoundHalfEven(10000 as real / 1000.0) == 10;
    assert NatToString(60) == "60" by {
      assert NatToString(6) == "6";
    }
  }
}
