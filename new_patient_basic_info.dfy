/** NewPatientBasicInfo: choosing a new patient's birth date recomputes the age
    codes A and B. "Today" is an input. */
module NewPatientBasicInfo {
  import opened Common
  import opened RiskEntries

  /** handle_birth_date's form update. */
  function BirthDateForm(prev: WizardForm, value: Date, today: Date): WizardForm
  {
    prev.(birthDate := Some(value), riskCodes := RecomputeAgeCodes(prev.riskCodes, AgeOn(today, value)))
  }

  /** handle_birth_date: counts the age down on a birthday not yet reached this year,
      filters out A and B, then pushes the row the age calls for. */
  method HandleBirthDate(prev: WizardForm, value: Date, today: Date) returns (next: WizardForm)
    ensures next == BirthDateForm(prev, value, today)
  {
    var age := today.year - value.year;
    var monthDiff := today.month - value.month;
    if monthDiff < 0 || (monthDiff == 0 && today.day < value.day) {
      age := age - 1;
    }
    var updated := prev.riskCodes;
    updated := WithoutCodes(updated, AgeCodes);
    if age < 18 {
      updated := updated + [AutoEntry("A")];
    } else if age > 35 {
      updated := updated + [AutoEntry("B")];
    }
    next := prev.(birthDate := Some(value), riskCodes := updated);
  }

  /** The birth date is stored; exactly one A when the age is under 18, exactly one
      B when it is over 35, neither from 18 to 35; the other rows are the original
      ones in their order, and every other code keeps its count. */
  lemma BirthDateFormRows(prev: WizardForm, value: Date, today: Date)
    ensures var next := BirthDateForm(prev, value, today);
      var age := AgeOn(today, value);
      && next.birthDate == Some(value)
      && CountCode(next.riskCodes, "A") == (if age < 18 then 1 else 0)
      && CountCode(next.riskCodes, "B") == (if age > 35 then 1 else 0)
      && (18 <= age <= 35 ==> CountCode(next.riskCodes, "A") == 0 && CountCode(next.riskCodes, "B") == 0)
      && WithoutCodes(next.riskCodes, AgeCodes) == WithoutCodes(prev.riskCodes, AgeCodes)
      && (forall c :: c !in AgeCodes ==> CountCode(next.riskCodes, c) == CountCode(prev.riskCodes, c))
  {
    RecomputeAgeCodesCounts(prev.riskCodes, AgeOn(today, value));
    RecomputeAgeCodesKeepsOthers(prev.riskCodes, AgeOn(today, value));
  }

  /** Choosing the same birth date twice gives the same form as choosing it once. */
  lemma BirthDateFormIdempotent(prev: WizardForm, value: Date, today: Date)
    ensures BirthDateForm(BirthDateForm(prev, value, today), value, today) == BirthDateForm(prev, value, today)
  {
    RecomputeAgeCodesIdempotent(prev.riskCodes, AgeOn(today, value));
  }
}
