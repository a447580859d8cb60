/** PatientTypeStep: choosing a birth date recomputes the age codes and, for a
    fourth or later pregnancy, adds a D row; picking an existing patient copies the
    stored record into the form and runs the same recompute.

    "Today" is an input. */
module PatientTypeStep {
  import opened Common
  import opened RiskEntries

  /** The D row added when the gravidity passed in is over 3; nothing is checked
      about rows already present. */
  function GravidityRows(gravidity: Option<int>): seq<RiskEntry>
  {
    if gravidity.Some? && gravidity.value > 3 then [AutoEntry("D")] else []
  }

  /** handle_birth_date's form update. */
  function BirthDateForm(prev: WizardForm, value: Date, gravidity: Option<int>, today: Date): WizardForm
  {
    prev.(birthDate := Some(value),
          riskCodes := RecomputeAgeCodes(prev.riskCodes, AgeOn(today, value)) + GravidityRows(gravidity))
  }

  /** handle_birth_date: counts the age down on a birthday not yet reached this year,
      filters out A and B, then pushes the rows the age and gravidity call for. */
  method HandleBirthDate(prev: WizardForm, value: Date, gravidity: Option<int>, today: Date)
    returns (next: WizardForm)
    ensures next == BirthDateForm(prev, value, gravidity, today)
  {
    var age := today.year - value.year;
    var monthDiff := today.month - value.month;
    if monthDiff < 0 || (monthDiff == 0 && today.day < value.day) {
      age := age - 1;
    }
    var updated := prev.riskCodes;
    updated := WithoutCodes(updated, AgeCodes);
    if age < 18 {
      updated := updated + [AutoEntry("A")];
    } else if age > 35 {
      updated := updated + [AutoEntry("B")];
    }
    if gravidity.Some? && gravidity.value > 3 {
      updated := updated + [AutoEntry("D")];
    }
    next := prev.(birthDate := Some(value), riskCodes := updated);
  }

  /** The birth date is stored; A is present exactly once when the age is under 18,
      B exactly once when it is over 35, never both, and no hand-entered A or B
      survives; a D row is appended exactly when the gravidity is over 3; the other
      rows keep their values and order. */
  lemma BirthDateFormRows(prev: WizardForm, value: Date, gravidity: Option<int>, today: Date)
    ensures var next := BirthDateForm(prev, value, gravidity, today);
      var age := AgeOn(today, value);
      var r := next.riskCodes;
      var kept := WithoutCodes(prev.riskCodes, AgeCodes);
      && next.birthDate == Some(value)
      && CountCode(r, "A") == (if age < 18 then 1 else 0)
      && CountCode(r, "B") == (if age > 35 then 1 else 0)
      && (forall i :: 0 <= i < |r| && r[i].riskCode in AgeCodes ==> r[i] == AutoEntry(r[i].riskCode))
      && CountCode(r, "D") == CountCode(prev.riskCodes, "D") + (if gravidity.Some? && gravidity.value > 3 then 1 else 0)
      && (gravidity.Some? && gravidity.value > 3 ==> r[|r| - 1] == AutoEntry("D"))
      && r[..|kept|] == kept
  {
    var ab := RecomputeAgeCodes(prev.riskCodes, AgeOn(today, value));
    var r := ab + GravidityRows(gravidity);
    RecomputeAgeCodesCounts(prev.riskCodes, AgeOn(today, value));
    CountCodeConcat(ab, GravidityRows(gravidity), "A");
    CountCodeConcat(ab, GravidityRows(gravidity), "B");
    CountCodeConcat(ab, GravidityRows(gravidity), "D");
    assert "D" !in AgeCodes;
    forall i | 0 <= i < |r| && r[i].riskCode in AgeCodes ensures r[i] == AutoEntry(r[i].riskCode) {
      if i < |ab| {
        assert r[i] == ab[i];
      }
    }
    assert r[..|WithoutCodes(prev.riskCodes, AgeCodes)|] == WithoutCodes(prev.riskCodes, AgeCodes);
  }

  /** D is appended without looking for one already there: running the update twice
      with a gravidity over 3 leaves two more D rows than before. */
  lemma RepeatedBirthDateDuplicatesD(prev: WizardForm, value: Date, gravidity: int, today: Date)
    requires gravidity > 3
    ensures var twice := BirthDateForm(BirthDateForm(prev, value, Some(gravidity), today), value, Some(gravidity), today);
      CountCode(twice.riskCodes, "D") == CountCode(prev.riskCodes, "D") + 2
  {
    var once := BirthDateForm(prev, value, Some(gravidity), today);
    BirthDateFormRows(prev, value, Some(gravidity), today);
    BirthDateFormRows(once, value, Some(gravidity), today);
  }

  // ---------------------------------------------------------------------
  // handle_existing_patient

  /** The stored record fetched for an existing patient; None is a null column. */
  datatype ExistingPatient = ExistingPatient(
    gravidity: Option<int>, parity: Option<int>, abortion: Option<int>, birthDate: Date,
    pregnancyStatus: string, barangayCenterId: string, barangayHealthStation: string)

  /** JavaScript's Number() on a nullable count: null is 0. */
  function NumberOf(v: Option<int>): int
  {
    if v.Some? then v.value else 0
  }

  /** The first setter of handle_existing_patient: the stored fields, with the
      gravidity counting the new pregnancy. */
  function CopiedForm(prev: WizardForm, data: ExistingPatient): WizardForm
  {
    prev.(numbers := prev.numbers["gravidity" := Num(NumberOf(data.gravidity) + 1)]
                                 ["parity" := FromColumn(data.parity)]["abortion" := FromColumn(data.abortion)],
          birthDate := Some(data.birthDate),
          text := prev.text["record_status" := data.pregnancyStatus]
                           ["barangay_center_id" := data.barangayCenterId]
                           ["barangay_health_station" := data.barangayHealthStation])
  }

  /** handle_existing_patient: copy the record, then run handle_birth_date with the
      stored, not yet incremented, gravidity. */
  method HandleExistingPatient(prev: WizardForm, data: ExistingPatient, today: Date) returns (next: WizardForm)
    ensures next == BirthDateForm(CopiedForm(prev, data), data.birthDate, data.gravidity, today)
  {
    var copied := prev.(numbers := prev.numbers["gravidity" := Num(NumberOf(data.gravidity) + 1)]
                                               ["parity" := FromColumn(data.parity)]
                                               ["abortion" := FromColumn(data.abortion)],
                        birthDate := Some(data.birthDate),
                        text := prev.text["record_status" := data.pregnancyStatus]
                                         ["barangay_center_id" := data.barangayCenterId]
                                         ["barangay_health_station" := data.barangayHealthStation]);
    next := HandleBirthDate(copied, data.birthDate, data.gravidity, today);
  }

  /** The form's gravidity is the stored one plus one, yet D is added only when the
      stored gravidity is over 3: a third pregnancy on record becomes gravidity 4
      without a D row being added. */
  lemma ExistingPatientGravidity(prev: WizardForm, data: ExistingPatient, today: Date)
    ensures var next := BirthDateForm(CopiedForm(prev, data), data.birthDate, data.gravidity, today);
      && next.numbers["gravidity"] == Num(NumberOf(data.gravidity) + 1)
      && next.numbers["parity"] == FromColumn(data.parity) && next.numbers["abortion"] == FromColumn(data.abortion)
      && next.birthDate == Some(data.birthDate)
      && CountCode(next.riskCodes, "D") == CountCode(prev.riskCodes, "D")
           + (if data.gravidity.Some? && data.gravidity.value > 3 then 1 else 0)
    ensures data.gravidity == Some(3) ==>
      var next := BirthDateForm(CopiedForm(prev, data), data.birthDate, data.gravidity, today);
      next.numbers["gravidity"] == Num(4) && CountCode(next.riskCodes, "D") == CountCode(prev.riskCodes, "D")
  {
    BirthDateFormRows(CopiedForm(prev, data), data.birthDate, data.gravidity, today);
  }
}
