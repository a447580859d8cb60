/** HealthInformationStep: editing the gravidity keeps the D row in step with it,
    and choosing lmp sets edc, the expected date of confinement, nine calendar
    months later. */
module HealthInformationStep {
  import opened Common
  import opened RiskEntries

  /** `rows.some(r => r.risk_code === code)`. */
  predicate HasCode(rs: seq<RiskEntry>, code: string)
  {
    exists i :: 0 <= i < |rs| && rs[i].riskCode == code
  }

  lemma {:induction false} HasCodeCount(rs: seq<RiskEntry>, code: string)
    ensures HasCode(rs, code) <==> CountCode(rs, code) > 0
  {
    if rs != [] {
      HasCodeCount(rs[1..], code);
      if HasCode(rs[1..], code) {
        var i :| 0 <= i < |rs[1..]| && rs[1..][i].riskCode == code;
        assert rs[i + 1].riskCode == code;
      }
      if HasCode(rs, code) && rs[0].riskCode != code {
        var i :| 0 <= i < |rs| && rs[i].riskCode == code;
        assert rs[1..][i - 1].riskCode == code;
      }
    }
  }

  /** The risk rows after the gravidity becomes `value`: over 3 adds a D row unless
      one is there; otherwise (a blank or non-numeric entry included) every D goes. */
  function ToggleD(rs: seq<RiskEntry>, value: FieldNumber): seq<RiskEntry>
  {
    if Above(value, 3) then
      if HasCode(rs, "D") then rs else rs + [AutoEntry("D")]
    else WithoutCodes(rs, {"D"})
  }

  /** handle_change: sets the edited field and toggles D. */
  method HandleChange(prev: WizardForm, name: string, value: FieldNumber) returns (next: WizardForm)
    ensures next == prev.(numbers := prev.numbers[name := value], riskCodes := ToggleD(prev.riskCodes, value))
  {
    var updated := prev.riskCodes;
    if Above(value, 3) {
      var hasD := HasCode(updated, "D");
      if !hasD {
        updated := updated + [AutoEntry("D")];
      }
    } else {
      updated := WithoutCodes(updated, {"D"});
    }
    next := prev.(numbers := prev.numbers[name := value], riskCodes := updated);
  }

  /** Over 3 with no D: exactly one D is appended, flagged auto. Over 3 with a D:
      nothing changes. Otherwise no D is left, hand-entered ones included. */
  lemma ToggleDCases(rs: seq<RiskEntry>, value: FieldNumber)
    ensures Above(value, 3) && CountCode(rs, "D") == 0 ==>
      ToggleD(rs, value) == rs + [AutoEntry("D")] && CountCode(ToggleD(rs, value), "D") == 1
    ensures Above(value, 3) && CountCode(rs, "D") > 0 ==> ToggleD(rs, value) == rs
    ensures !Above(value, 3) ==> CountCode(ToggleD(rs, value), "D") == 0
  {
    HasCodeCount(rs, "D");
    CountCodeConcat(rs, [AutoEntry("D")], "D");
    assert [AutoEntry("D")][1..] == [];
    WithoutCodesCount(rs, {"D"}, "D");
  }

  /** The rows other than D are the original ones in their order. */
  lemma ToggleDKeepsOthers(rs: seq<RiskEntry>, value: FieldNumber)
    ensures WithoutCodes(ToggleD(rs, value), {"D"}) == WithoutCodes(rs, {"D"})
  {
    if Above(value, 3) {
      WithoutCodesConcat(rs, [AutoEntry("D")], {"D"});
      assert [AutoEntry("D")][1..] == [];
    } else {
      WithoutCodesTwice(rs, {"D"}, {"D"});
      assert {"D"} + {"D"} == {"D"};
    }
  }

  /** Entering the same value twice is entering it once. */
  lemma ToggleDIdempotent(rs: seq<RiskEntry>, value: FieldNumber)
    ensures ToggleD(ToggleD(rs, value), value) == ToggleD(rs, value)
  {
    if Above(value, 3) {
      if !HasCode(rs, "D") {
        var r := rs + [AutoEntry("D")];
        assert r[|rs|].riskCode == "D";
      }
    } else {
      WithoutCodesTwice(rs, {"D"}, {"D"});
      assert {"D"} + {"D"} == {"D"};
    }
  }

  // ---------------------------------------------------------------------
  // EDC

  predicate IsLeapYear(y: int)
  {
    y % 4 == 0 && (y % 100 != 0 || y % 400 == 0)
  }

  function DaysInMonth(y: int, m: int): (n: nat)
    requires 1 <= m <= 12
    ensures 28 <= n <= 31
  {
    if m == 2 then (if IsLeapYear(y) then 29 else 28)
    else if m in {4, 6, 9, 11} then 30
    else 31
  }

  /** A date the date picker can produce, read with JavaScript's Date constructor's
      convention that years 0 to 99 mean 1900 to 1999. */
  function JsYear(y: int): int
  {
    if 0 <= y <= 99 then 1900 + y else y
  }

  predicate ValidLmp(lmp: Date)
  {
    0 <= lmp.year && 1 <= lmp.month <= 12 && 1 <= lmp.day <= DaysInMonth(JsYear(lmp.year), lmp.month)
  }

  /** Months since year 0 of a date's month. */
  function MonthIndex(d: Date): int
  {
    d.year * 12 + d.month - 1
  }

  /** `setMonth(getMonth() + 9)`: nine months on, and a day past the end of the
      target month runs over into the month after. */
  function AddNineMonths(lmp: Date): (r: Date)
    requires ValidLmp(lmp)
  {
    var y := JsYear(lmp.year);
    var target := lmp.month - 1 + 9;
    var ty := y + target / 12;
    var tm := target % 12 + 1;
    if lmp.day <= DaysInMonth(ty, tm) then Date(ty, tm, lmp.day)
    else Date(ty, tm + 1, lmp.day - DaysInMonth(ty, tm))
  }

  /** The edc is a real calendar date nine months after lmp, on the same day of the
      month; when that month is too short it is the month after, on the day the
      overflow reaches. */
  lemma AddNineMonthsShape(lmp: Date)
    requires ValidLmp(lmp)
    ensures var r := AddNineMonths(lmp);
      var start := Date(JsYear(lmp.year), lmp.month, lmp.day);
      && 1 <= r.month <= 12 && 1 <= r.day <= DaysInMonth(r.year, r.month) && 0 <= r.year
      && (r.day == lmp.day ==> MonthIndex(r) == MonthIndex(start) + 9)
      && (r.day != lmp.day ==> MonthIndex(r) == MonthIndex(start) + 10 && r.day < lmp.day
                                && r.day == lmp.day - DaysInMonth(r.year, r.month - 1))
  {
    var y := JsYear(lmp.year);
    var target := lmp.month - 1 + 9;
    var ty := y + target / 12;
    var tm := target % 12 + 1;
    assert 9 <= target < 21;
    if target < 12 {
      assert target / 12 == 0 && target % 12 == target;
    } else {
      assert target / 12 == 1 && target % 12 == target - 12;
    }
    assert ty * 12 + tm - 1 == y * 12 + lmp.month - 1 + 9;
  }

  /** `${year}-${pad2(month)}-${pad2(day)}`. */
  function EdcText(lmp: Date): string
    requires ValidLmp(lmp)
  {
    var r := AddNineMonths(lmp);
    AddNineMonthsShape(lmp);
    NatToString(r.year) + "-" + PadLeft(NatToString(r.month), 2, '0') + "-" + PadLeft(NatToString(r.day), 2, '0')
  }

  /** The edc string is the year, a dash, the month in two digits, a dash and the
      day in two digits, and it reads back as the computed date. */
  lemma EdcTextReadsBack(lmp: Date)
    requires ValidLmp(lmp)
    ensures var r := AddNineMonths(lmp);
      var s := EdcText(lmp);
      var n := NumDigits(r.year);
      && |s| == n + 6
      && s[n] == '-' && s[n + 3] == '-'
      && AllDigits(s[..n]) && AllDigits(s[n + 1..n + 3]) && AllDigits(s[n + 4..])
      && DigitsValue(s[..n]) == r.year
      && DigitsValue(s[n + 1..n + 3]) == r.month
      && DigitsValue(s[n + 4..]) == r.day
  {
    var r := AddNineMonths(lmp);
    AddNineMonthsShape(lmp);
    var y := NatToString(r.year);
    var m := PadLeft(NatToString(r.month), 2, '0');
    var d := PadLeft(NatToString(r.day), 2, '0');
    NatToStringRoundTrip(r.year);
    TwoDigits(r.month);
    TwoDigits(r.day);
    DashedParts(y, m, d);
    assert EdcText(lmp) == y + "-" + m + "-" + d;
  }

  /** The lmp date picker's handler: builds the date, moves it nine months on with
      setMonth, and formats it. */
  method HandleLmpChange(prev: WizardForm, lmp: Date) returns (next: WizardForm)
    requires ValidLmp(lmp)
    ensures next == prev.(lmp := Some(lmp), edc := EdcText(lmp))
  {
    var date := Date(JsYear(lmp.year), lmp.month, lmp.day);
    var target := date.month - 1 + 9;
    date := date.(year := date.year + target / 12, month := target % 12 + 1);
    var length := DaysInMonth(date.year, date.month);
    if date.day > length {
      date := date.(month := date.month + 1, day := date.day - length);
    }
    assert date == AddNineMonths(lmp);
    AddNineMonthsShape(lmp);
    var edc := NatToString(date.year) + "-" + PadLeft(NatToString(date.month), 2, '0')
      + "-" + PadLeft(NatToString(date.day), 2, '0');
    next := prev.(lmp := Some(lmp), edc := edc);
  }
}
