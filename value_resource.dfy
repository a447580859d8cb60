/** PrenatalOutPatientValueResource: the values a prenatal visit form pre-fills for
    the selected patient — blank-defaulted vitals, the active tracking's gravidity
    and status, and the age of gestation rendered as "{weeks}w/{days}d".
    Elapsed days since lmp are an input. */
module PrenatalOutPatientValueResource {
  import opened Common
  import PT = PregnancyTrackingController

  /** Age of gestation split into whole weeks and remaining days. */
  datatype Aog = Aog(weeks: nat, days: nat)

  /** weeks = elapsed days div 7, days = elapsed days mod 7. */
  function AogParts(elapsedDays: nat): (a: Aog)
    ensures a.days < 7
    ensures a.weeks * 7 + a.days == elapsedDays
  {
    Aog(elapsedDays / 7, elapsedDays % 7)
  }

  /** The `aog` string. The zero-days branch spells out "0d" just like the other. */
  function AogText(elapsedDays: nat): string
  {
    var a := AogParts(elapsedDays);
    if a.days > 0 then NatToString(a.weeks) + "w/" + NatToString(a.days) + "d"
    else NatToString(a.weeks) + "w/0d"
  }

  /** Both branches have one shape: digits, "w/", one digit, "d". */
  lemma AogShape(elapsedDays: nat)
    ensures var a := AogParts(elapsedDays);
      AogText(elapsedDays) == NatToString(a.weeks) + "w/" + [DigitChar(a.days)] + "d"
  {
  }

  /** Index of the first `c` in `s`, if any. */
  function IndexOf(s: string, c: char): (r: Option<nat>)
    ensures r.Some? ==> r.value < |s| && s[r.value] == c && forall j :: 0 <= j < r.value ==> s[j] != c
    ensures r.None? ==> forall j :: 0 <= j < |s| ==> s[j] != c
  {
    if s == [] then None
    else if s[0] == c then Some(0)
    else match IndexOf(s[1..], c)
      case None => None
      case Some(i) => Some(i + 1)
  }

  /** Reads "{weeks}w/{days}d" back as a number of elapsed days. */
  function ParseAog(s: string): Option<nat>
  {
    match IndexOf(s, 'w')
    case None => None
    case Some(i) =>
      if i + 3 <= |s| && s[i + 1] == '/' && s[|s| - 1] == 'd' && 0 < i
         && AllDigits(s[..i]) && AllDigits(s[i + 2..|s| - 1]) && i + 2 < |s| - 1
      then Some(DigitsValue(s[..i]) * 7 + DigitsValue(s[i + 2..|s| - 1]))
      else None
  }

  /** The rendered age of gestation determines the elapsed days: parsing it back
      gives them, so two different day counts never render alike. */
  lemma {:induction false} AogRoundTrip(elapsedDays: nat)
    ensures ParseAog(AogText(elapsedDays)) == Some(elapsedDays)
  {
    var a := AogParts(elapsedDays);
    var w := NatToString(a.weeks);
    var d := [DigitChar(a.days)];
    var s := AogText(elapsedDays);
    AogShape(elapsedDays);
    assert s == w + "w/" + d + "d";
    assert forall j :: 0 <= j < |w| ==> s[j] == w[j] && s[j] != 'w';
    assert s[|w|] == 'w';
    assert IndexOf(s, 'w') == Some(|w|);
    assert s[..|w|] == w;
    assert s[|w| + 2..|s| - 1] == d;
    assert s[|w| + 1] == '/' && s[|s| - 1] == 'd' && |s| == |w| + 4;
    assert DigitsValue(d) == a.days by {
      assert DigitsValue(d) == DigitValue(d[0]) * Pow10(0) + DigitsValue(d[1..]);
      assert d[1..] == [];
    }
    NatToStringRoundTrip(a.weeks);
  }

  // ---------------------------------------------------------------------
  // toArray

  /** The visit's stored vitals; None is a null column. */
  datatype Vitals = Vitals(
    temp: Option<string>, weight: Option<string>, rr: Option<string>,
    pr: Option<string>, twoSat: Option<string>, bp: Option<string>)

  /** The columns of a pregnancy_trackings row this resource reads. */
  datatype TrackingRow = TrackingRow(isDone: bool, status: PT.Status, gravidity: Option<int>)

  datatype ValueResource = ValueResource(
    temp: string, weight: string, rr: string, pr: string, twoSat: string, bp: string,
    gravidity: Option<int>, pregnancyStatus: PT.Status, aog: string)

  /** PHP's `$v ?? ''`. */
  function OrBlank(v: Option<string>): (r: string)
    ensures v.Some? ==> r == v.value
    ensures v.None? ==> r == ""
  {
    if v.Some? then v.value else ""
  }

  /** The query for the tracking: open and neither miscarried nor discontinued. */
  predicate IsActive(t: TrackingRow)
  {
    !t.isDone && t.status != PT.MiscarriageAbortion && t.status != PT.Discontinued
  }

  function ActiveTracking(t: Option<TrackingRow>): (r: Option<TrackingRow>)
    ensures r.Some? <==> t.Some? && IsActive(t.value)
    ensures r.Some? ==> r == t
  {
    if t.Some? && IsActive(t.value) then t else None
  }

  const NoTrackingError := "Attempt to read property \"gravidity\" on null"

  /** toArray. Without an active tracking the query gives null, and reading its
      gravidity raises an error that the framework turns into an exception, so the
      resource fails. */
  function ToArray(v: Vitals, tracking: Option<TrackingRow>, elapsedDays: nat): Result<ValueResource>
  {
    match ActiveTracking(tracking)
    case None => Err(NoTrackingError)
    case Some(active) =>
      Ok(ValueResource(
        OrBlank(v.temp), OrBlank(v.weight), OrBlank(v.rr), OrBlank(v.pr), OrBlank(v.twoSat), OrBlank(v.bp),
        active.gravidity, active.status, AogText(elapsedDays)))
  }

  /** The resource fails exactly when there is no active tracking. Otherwise null
      vitals become '' and others pass through, gravidity and status are the active
      tracking's, and aog is AogText of the elapsed days (its "{weeks}w/{days}d"
      format is stated by AogParts and AogShape), which parses back to them. */
  lemma ToArrayFields(v: Vitals, tracking: Option<TrackingRow>, elapsedDays: nat)
    ensures var res := ToArray(v, tracking, elapsedDays);
      && (res.Ok? <==> tracking.Some? && IsActive(tracking.value))
      && (res.Ok? ==>
            var out := res.value;
            && out.temp == (if v.temp.Some? then v.temp.value else "")
            && out.weight == (if v.weight.Some? then v.weight.value else "")
            && out.rr == (if v.rr.Some? then v.rr.value else "")
            && out.pr == (if v.pr.Some? then v.pr.value else "")
            && out.twoSat == (if v.twoSat.Some? then v.twoSat.value else "")
            && out.bp == (if v.bp.Some? then v.bp.value else "")
            && out.pregnancyStatus == tracking.value.status
            && out.gravidity == tracking.value.gravidity
            && out.aog == AogText(elapsedDays)
            && ParseAog(out.aog) == Some(elapsedDays))
  {
    AogRoundTrip(elapsedDays);
  }
}
