/** The risk-code rows of the patient registration wizard and the rules several of
    its steps share: the age on a given day, removing rows by code, and the
    age-driven A/B recompute.

    Risk codes: A = younger than 18, B = older than 35, D = fourth or later
    pregnancy; C, E and F are entered by hand. */
module RiskEntries {
  import opened Common

  /** A risk-code row. `auto` is set on rows the wizard added by itself; rows the
      user adds carry no such flag. */
  datatype RiskEntry = RiskEntry(riskCode: string, dateDetected: string, riskStatus: string, auto: bool)

  /** The row the wizard adds for `code`: blank date and status, flagged auto. */
  function AutoEntry(code: string): RiskEntry
  {
    RiskEntry(code, "", "", true)
  }

  /** The value of a number field as JavaScript's `<` and `>` see it: undefined (the
      field was never set), blank ('' or null, which compare as 0), a whole number,
      or text that is not a number (NaN, which compares false with everything). */
  datatype FieldNumber = Undefined | Blank | Num(n: int) | NotANumber

  /** `v > k` in JavaScript. */
  predicate Above(v: FieldNumber, k: int)
  {
    (v.Num? && v.n > k) || (v.Blank? && 0 > k)
  }

  /** `v < k` in JavaScript. */
  predicate Below(v: FieldNumber, k: int)
  {
    (v.Num? && v.n < k) || (v.Blank? && 0 < k)
  }

  /** A nullable stored count copied into the form: null stays null, which
      compares as 0. */
  function FromColumn(v: Option<int>): (r: FieldNumber)
    ensures v.Some? ==> r == Num(v.value)
    ensures v.None? ==> r == Blank
  {
    if v.Some? then Num(v.value) else Blank
  }

  /** The wizard's form state as far as these rules touch it: the birth date, the
      numeric fields (gravidity, parity, abortion), the risk rows, lmp and edc, and
      other text fields. */
  datatype WizardForm = WizardForm(
    birthDate: Option<Date>,
    numbers: map<string, FieldNumber>,
    riskCodes: seq<RiskEntry>,
    lmp: Option<Date>,
    edc: string,
    text: map<string, string>)

  // ---------------------------------------------------------------------
  // Age

  /** Calendar order on (year, month, day). */
  predicate OnOrBefore(a: Date, b: Date)
  {
    a.year < b.year || (a.year == b.year && (a.month < b.month || (a.month == b.month && a.day <= b.day)))
  }

  /** The year difference, less one when today's month and day come before the
      birth month and day. */
  function AgeOn(today: Date, birth: Date): int
  {
    var age := today.year - birth.year;
    var monthDiff := today.month - birth.month;
    if monthDiff < 0 || (monthDiff == 0 && today.day < birth.day) then age - 1 else age
  }

  /** The age is the number of completed years: the birthday of that many years
      has come by today, and the next one has not. */
  lemma AgeIsCompletedYears(today: Date, birth: Date)
    ensures OnOrBefore(Date(birth.year + AgeOn(today, birth), birth.month, birth.day), today)
    ensures !OnOrBefore(Date(birth.year + AgeOn(today, birth) + 1, birth.month, birth.day), today)
  {
  }

  // ---------------------------------------------------------------------
  // Removing rows by code

  /** `rows.filter(r => !codes.includes(r.risk_code))`. */
  function WithoutCodes(rs: seq<RiskEntry>, codes: set<string>): seq<RiskEntry>
  {
    if rs == [] then []
    else (if rs[0].riskCode in codes then [] else [rs[0]]) + WithoutCodes(rs[1..], codes)
  }

  /** Exactly the rows whose code is not listed survive. */
  lemma {:induction false} WithoutCodesMembers(rs: seq<RiskEntry>, codes: set<string>)
    ensures forall e :: e in WithoutCodes(rs, codes) <==> e in rs && e.riskCode !in codes
  {
    if rs != [] {
      WithoutCodesMembers(rs[1..], codes);
      assert rs == [rs[0]] + rs[1..];
    }
  }

  /** Filtering distributes over concatenation, so the surviving rows keep their
      relative order. */
  lemma {:induction false} WithoutCodesConcat(a: seq<RiskEntry>, b: seq<RiskEntry>, codes: set<string>)
    ensures WithoutCodes(a + b, codes) == WithoutCodes(a, codes) + WithoutCodes(b, codes)
  {
    if a == [] {
      assert a + b == b;
    } else {
      assert (a + b)[0] == a[0];
      assert (a + b)[1..] == a[1..] + b;
      WithoutCodesConcat(a[1..], b, codes);
    }
  }

  /** Filtering a list that holds none of the codes changes nothing. */
  lemma {:induction false} WithoutCodesNoop(rs: seq<RiskEntry>, codes: set<string>)
    requires forall i :: 0 <= i < |rs| ==> rs[i].riskCode !in codes
    ensures WithoutCodes(rs, codes) == rs
  {
    if rs != [] {
      WithoutCodesNoop(rs[1..], codes);
    }
  }

  /** Filtering twice is filtering once, and filtering by two sets of codes is
      filtering by their union. */
  lemma {:induction false} WithoutCodesTwice(rs: seq<RiskEntry>, codes: set<string>, more: set<string>)
    ensures WithoutCodes(WithoutCodes(rs, codes), more) == WithoutCodes(rs, codes + more)
  {
    if rs != [] {
      WithoutCodesTwice(rs[1..], codes, more);
      var head := if rs[0].riskCode in codes then [] else [rs[0]];
      WithoutCodesConcat(head, WithoutCodes(rs[1..], codes), more);
      if rs[0].riskCode !in codes {
        assert WithoutCodes(head, more) == (if rs[0].riskCode in more then [] else [rs[0]]) by {
          assert head[1..] == [];
        }
      }
    }
  }

  /** The number of rows with `code`. */
  function CountCode(rs: seq<RiskEntry>, code: string): nat
  {
    if rs == [] then 0 else (if rs[0].riskCode == code then 1 else 0) + CountCode(rs[1..], code)
  }

  lemma {:induction false} CountCodeConcat(a: seq<RiskEntry>, b: seq<RiskEntry>, code: string)
    ensures CountCode(a + b, code) == CountCode(a, code) + CountCode(b, code)
  {
    if a == [] {
      assert a + b == b;
    } else {
      assert (a + b)[0] == a[0];
      assert (a + b)[1..] == a[1..] + b;
      CountCodeConcat(a[1..], b, code);
    }
  }

  /** No row with a removed code is left. */
  lemma {:induction false} WithoutCodesCount(rs: seq<RiskEntry>, codes: set<string>, code: string)
    ensures code in codes ==> CountCode(WithoutCodes(rs, codes), code) == 0
    ensures code !in codes ==> CountCode(WithoutCodes(rs, codes), code) == CountCode(rs, code)
  {
    if rs != [] {
      WithoutCodesCount(rs[1..], codes, code);
      var head := if rs[0].riskCode in codes then [] else [rs[0]];
      CountCodeConcat(head, WithoutCodes(rs[1..], codes), code);
      if head != [] {
        assert head[1..] == [];
      }
    }
  }

  // ---------------------------------------------------------------------
  // The age-driven A/B recompute

  const AgeCodes: set<string> := {"A", "B"}

  /** The auto row the age calls for: A under 18, B over 35, none in between. */
  function AgeRows(age: int): seq<RiskEntry>
  {
    if age < 18 then [AutoEntry("A")] else if age > 35 then [AutoEntry("B")] else []
  }

  /** Drop every A and B row, then add the row the age calls for. */
  function RecomputeAgeCodes(rs: seq<RiskEntry>, age: int): seq<RiskEntry>
  {
    WithoutCodes(rs, AgeCodes) + AgeRows(age)
  }

  /** After the recompute there is exactly one A when the age is under 18, exactly
      one B when it is over 35, never both, and each is the auto row: a row entered
      by hand is gone. Other codes keep their count. */
  lemma RecomputeAgeCodesCounts(rs: seq<RiskEntry>, age: int)
    ensures var r := RecomputeAgeCodes(rs, age);
      && CountCode(r, "A") == (if age < 18 then 1 else 0)
      && CountCode(r, "B") == (if age > 35 then 1 else 0)
      && !(CountCode(r, "A") > 0 && CountCode(r, "B") > 0)
      && (forall i :: 0 <= i < |r| && r[i].riskCode in AgeCodes ==> r[i] == AutoEntry(r[i].riskCode))
      && (forall c :: c !in AgeCodes ==> CountCode(r, c) == CountCode(rs, c))
  {
    var kept := WithoutCodes(rs, AgeCodes);
    CountCodeConcat(kept, AgeRows(age), "A");
    CountCodeConcat(kept, AgeRows(age), "B");
    WithoutCodesCount(rs, AgeCodes, "A");
    WithoutCodesCount(rs, AgeCodes, "B");
    WithoutCodesMembers(rs, AgeCodes);
    forall c | c !in AgeCodes ensures CountCode(RecomputeAgeCodes(rs, age), c) == CountCode(rs, c) {
      CountCodeConcat(kept, AgeRows(age), c);
      WithoutCodesCount(rs, AgeCodes, c);
    }
    var r := RecomputeAgeCodes(rs, age);
    assert forall i :: 0 <= i < |kept| ==> kept[i] in kept;
  }

  /** The rows other than A and B are the original ones, in their original order. */
  lemma RecomputeAgeCodesKeepsOthers(rs: seq<RiskEntry>, age: int)
    ensures WithoutCodes(RecomputeAgeCodes(rs, age), AgeCodes) == WithoutCodes(rs, AgeCodes)
  {
    var kept := WithoutCodes(rs, AgeCodes);
    WithoutCodesConcat(kept, AgeRows(age), AgeCodes);
    WithoutCodesTwice(rs, AgeCodes, AgeCodes);
    assert AgeCodes + AgeCodes == AgeCodes;
  }

  /** Recomputing twice for the same age is recomputing once. */
  lemma RecomputeAgeCodesIdempotent(rs: seq<RiskEntry>, age: int)
    ensures RecomputeAgeCodes(RecomputeAgeCodes(rs, age), age) == RecomputeAgeCodes(rs, age)
  {
    RecomputeAgeCodesKeepsOthers(rs, age);
  }
}
