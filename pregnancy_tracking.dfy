/** The pregnancy-tracking record and the rules PregnancyTrackingController applies
    to it: the trimester classifier, the tracking number, the status refresh on
    store/update, and the outcome transition (update_pregnancy).

    Elapsed whole weeks since the last menstrual period (Carbon's diffInWeeks against
    "now") are an input of every rule that needs them. */
module PregnancyTrackingController {
  import opened Common

  datatype Status =
    | FirstTrimester | SecondTrimester | ThirdTrimester | Postpartum
    | MiscarriageAbortion | Completed | Discontinued | Normal

  /** The four statuses the classifier can produce, in lifecycle order. */
  predicate IsDateDerived(s: Status)
  {
    s.FirstTrimester? || s.SecondTrimester? || s.ThirdTrimester? || s.Postpartum?
  }

  /** Statuses an outcome leaves on a closed record. */
  predicate IsTerminal(s: Status)
  {
    s.MiscarriageAbortion? || s.Completed?
  }

  /** Position of a date-derived status in the lifecycle. */
  function Stage(s: Status): nat
  {
    match s
    case FirstTrimester => 0
    case SecondTrimester => 1
    case ThirdTrimester => 2
    case _ => 3
  }

  /** calculatePregnancyStatus: the first matching threshold wins. */
  function CalculatePregnancyStatus(weeks: int): (s: Status)
    ensures IsDateDerived(s)
    ensures s == FirstTrimester <==> weeks <= 12
    ensures s == SecondTrimester <==> 13 <= weeks <= 27
    ensures s == ThirdTrimester <==> 28 <= weeks <= 40
    ensures s == Postpartum <==> 41 <= weeks
  {
    if weeks <= 12 then FirstTrimester
    else if weeks <= 27 then SecondTrimester
    else if weeks <= 40 then ThirdTrimester
    else Postpartum
  }

  /** More elapsed weeks never give an earlier status. */
  lemma ClassifierMonotone(w1: int, w2: int)
    requires w1 <= w2
    ensures Stage(CalculatePregnancyStatus(w1)) <= Stage(CalculatePregnancyStatus(w2))
  {
  }

  // ---------------------------------------------------------------------
  // The record

  /** Delivery details the delivery branch validates and stores. */
  datatype DeliveryDetails = DeliveryDetails(
    outcomeSex: string, outcomeWeight: string, placeOfDelivery: string,
    dateDelivery: string, phic: string)

  /** The request fields of a delivery; None is a missing (null) field.
      `dateDeliveryParses` says whether PHP's date parser (strtotime and date_parse,
      which Laravel's `date` rule calls) accepts date_delivery; the parser itself is
      an input, not part of this model. */
  datatype DeliveryRequest = DeliveryRequest(
    outcomeSex: Option<string>, outcomeWeight: Option<string>,
    placeOfDelivery: Option<string>, dateDelivery: Option<string>, phic: Option<string>,
    dateDeliveryParses: bool)

  /** Abstract value of a pregnancy_trackings row. A counter that is null or not
      numeric is None. */
  datatype Record = Record(
    lmp: Option<Date>,
    parity: Option<int>,
    abortion: Option<int>,
    isDone: bool,
    pregnancyStatus: Status,
    ancGiven: int,
    delivery: Option<DeliveryDetails>,
    trackingNumber: string)

  /** PHP's `(int)` cast and `is_numeric($v) ? (int) $v : 0` of a stored counter. */
  function AsInt(v: Option<int>): int
  {
    if v.Some? then v.value else 0
  }

  predicate Max(a: int, b: int, m: int) { m == if a >= b then a else b }

  // ---------------------------------------------------------------------
  // store / update

  /** The record `store` leaves after creating the row with `fields`: the tracking
      number is set, and the status is recomputed only when lmp is present. */
  function StoredRecord(fields: Record, year: nat, dailyCount: nat, id: nat, weeks: int): Record
  {
    fields.(
      trackingNumber := DailySequenceNumber(year, dailyCount, id),
      pregnancyStatus := if fields.lmp.Some? then CalculatePregnancyStatus(weeks) else fields.pregnancyStatus)
  }

  /** The request fields `update` writes back. */
  datatype UpdateFields = UpdateFields(lmp: Option<Date>, parity: Option<int>, abortion: Option<int>)

  /** The record after `update`: the status is recomputed from the lmp stored BEFORE
      the update (weeks are counted from it), when that lmp is present. */
  function UpdatedRecord(r: Record, fields: UpdateFields, weeksFromStoredLmp: int): Record
  {
    r.(
      lmp := fields.lmp, parity := fields.parity, abortion := fields.abortion,
      pregnancyStatus := if r.lmp.Some? then CalculatePregnancyStatus(weeksFromStoredLmp) else r.pregnancyStatus)
  }

  // ---------------------------------------------------------------------
  // update_pregnancy

  const MiscarriageLateMessage := "Miscarriage/Abortion is happens more than 20 weeks. Parity is updated!"
  const MiscarriageEarlyMessage := "Miscarriage/Abortion is happens less than 20 weeks. Abortion is updated!"
  const DeliveryMessage := "Pregnancy tracking updated successfully."
  const ValidationMessage := "The given data was invalid."

  /** The characters PHP's trim() strips. */
  predicate IsTrimmed(c: char)
  {
    c == ' ' || c == '\t' || c == '\n' || c == '\r' || c == '\U{0}' || c == '\U{B}'
  }

  /** Laravel's `required` on a text field: present, and not empty once trimmed. */
  predicate Filled(v: Option<string>)
  {
    v.Some? && exists i :: 0 <= i < |v.value| && !IsTrimmed(v.value[i])
  }

  /** The delivery validation: every field required, place_of_delivery at most
      255 characters, date_delivery a date PHP can parse. */
  function ValidateDelivery(req: DeliveryRequest): (d: Option<DeliveryDetails>)
    ensures d.Some? <==> (Filled(req.outcomeSex) && Filled(req.outcomeWeight)
                          && Filled(req.placeOfDelivery) && |req.placeOfDelivery.value| <= 255
                          && Filled(req.dateDelivery) && req.dateDeliveryParses && Filled(req.phic))
    ensures d.Some? ==> d.value == DeliveryDetails(req.outcomeSex.value, req.outcomeWeight.value,
                                                   req.placeOfDelivery.value, req.dateDelivery.value,
                                                   req.phic.value)
  {
    if Filled(req.outcomeSex) && Filled(req.outcomeWeight) && Filled(req.placeOfDelivery)
       && |req.placeOfDelivery.value| <= 255 && Filled(req.dateDelivery) && req.dateDeliveryParses
       && Filled(req.phic)
    then Some(DeliveryDetails(req.outcomeSex.value, req.outcomeWeight.value,
                              req.placeOfDelivery.value, req.dateDelivery.value, req.phic.value))
    else None
  }

  /** The outcome transition as the controller performs it. No isDone guard: it
      applies to a closed record as well. */
  function RecordOutcome(r: Record, outcomeType: string, req: DeliveryRequest, weeks: int)
    : Result<(Record, string)>
  {
    if outcomeType == "miscarriage" then
      if weeks > 20 then
        Ok((r.(isDone := true, parity := Some(AsInt(r.abortion) + 1),
               pregnancyStatus := MiscarriageAbortion), MiscarriageLateMessage))
      else
        Ok((r.(isDone := true, abortion := Some(AsInt(r.abortion) + 1),
               pregnancyStatus := MiscarriageAbortion), MiscarriageEarlyMessage))
    else
      match ValidateDelivery(req)
      case None => Err(ValidationMessage)
      case Some(details) =>
        var parity := AsInt(r.parity);
        var abortion := AsInt(r.abortion);
        var parity' :=
          if weeks > 20 then
            (if r.pregnancyStatus == MiscarriageAbortion then (if parity >= 0 then parity else 0)
             else parity + 1)
          else parity;
        var abortion' := if weeks > 20 then abortion else (if abortion - 1 >= 0 then abortion - 1 else 0);
        Ok((r.(isDone := true, pregnancyStatus := Completed, ancGiven := 1,
               abortion := Some(abortion'), parity := Some(parity'), delivery := Some(details)),
            DeliveryMessage))
  }

  /** Fields the outcome transition never touches. */
  predicate SameIdentity(a: Record, b: Record)
  {
    a.lmp == b.lmp && a.trackingNumber == b.trackingNumber
  }

  /** A miscarriage past 20 weeks closes the record and sets parity to the old
      abortion count plus one (not parity plus one); abortion is unchanged. */
  lemma MiscarriageLate(r: Record, req: DeliveryRequest, weeks: int)
    requires weeks > 20
    ensures var out := RecordOutcome(r, "miscarriage", req, weeks);
      && out.Ok?
      && out.value.0 == r.(isDone := true, pregnancyStatus := MiscarriageAbortion,
                            parity := Some(AsInt(r.abortion) + 1))
      && out.value.1 == MiscarriageLateMessage
  {
  }

  /** A miscarriage at 20 weeks or less closes the record and counts one more
      abortion; parity is unchanged. */
  lemma MiscarriageEarly(r: Record, req: DeliveryRequest, weeks: int)
    requires weeks <= 20
    ensures var out := RecordOutcome(r, "miscarriage", req, weeks);
      && out.Ok?
      && out.value.0 == r.(isDone := true, pregnancyStatus := MiscarriageAbortion,
                            abortion := Some(AsInt(r.abortion) + 1))
      && out.value.1 == MiscarriageEarlyMessage
  {
  }

  /** A delivery is rejected, leaving the record as it was, exactly when a required
      field is missing or blank, place_of_delivery is too long or date_delivery is
      not a date; otherwise it completes the record. */
  lemma DeliveryCloses(r: Record, outcomeType: string, req: DeliveryRequest, weeks: int)
    requires outcomeType != "miscarriage"
    ensures var out := RecordOutcome(r, outcomeType, req, weeks);
      && (out.Err? <==> ValidateDelivery(req).None?)
      && (out.Ok? ==>
            && out.value.0.isDone && out.value.0.pregnancyStatus == Completed
            && out.value.0.ancGiven == 1 && out.value.0.delivery == ValidateDelivery(req)
            && SameIdentity(out.value.0, r)
            && out.value.1 == DeliveryMessage)
  {
  }

  /** Delivery past 20 weeks: parity grows by one unless the record already holds
      a miscarriage outcome, in which case it is only floored at zero; abortion keeps
      its (coerced) value. */
  lemma DeliveryLateCounters(r: Record, req: DeliveryRequest, weeks: int)
    requires weeks > 20 && ValidateDelivery(req).Some?
    ensures var out := RecordOutcome(r, "delivery", req, weeks);
      && out.Ok?
      && out.value.0.abortion == Some(AsInt(r.abortion))
      && (r.pregnancyStatus != MiscarriageAbortion ==> out.value.0.parity == Some(AsInt(r.parity) + 1))
      && (r.pregnancyStatus == MiscarriageAbortion ==> Max(AsInt(r.parity), 0, out.value.0.parity.value))
  {
  }

  /** Delivery at 20 weeks or less: abortion drops by one but never below zero;
      parity keeps its (coerced) value. */
  lemma DeliveryEarlyCounters(r: Record, req: DeliveryRequest, weeks: int)
    requires weeks <= 20 && ValidateDelivery(req).Some?
    ensures var out := RecordOutcome(r, "delivery", req, weeks);
      && out.Ok?
      && out.value.0.parity == Some(AsInt(r.parity))
      && Max(AsInt(r.abortion) - 1, 0, out.value.0.abortion.value)
  {
  }

  /** Invariant: a closed record holds a terminal status after every successful
      outcome, and counters that were non-negative stay non-negative. */
  lemma OutcomeKeepsInvariant(r: Record, outcomeType: string, req: DeliveryRequest, weeks: int)
    requires AsInt(r.parity) >= 0 && AsInt(r.abortion) >= 0
    ensures var out := RecordOutcome(r, outcomeType, req, weeks);
      out.Ok? ==> && out.value.0.isDone && IsTerminal(out.value.0.pregnancyStatus)
                  && AsInt(out.value.0.parity) >= 0 && AsInt(out.value.0.abortion) >= 0
                  && SameIdentity(out.value.0, r)
  {
  }

  /** There is no guard against a closed record: a second early miscarriage counts
      the abortion again. */
  lemma NoDoneGuard(r: Record, req: DeliveryRequest, weeks: int)
    requires weeks <= 20
    ensures var once := RecordOutcome(r, "miscarriage", req, weeks).value.0;
      && once.isDone
      && RecordOutcome(once, "miscarriage", req, weeks).Ok?
      && RecordOutcome(once, "miscarriage", req, weeks).value.0.abortion == Some(AsInt(r.abortion) + 2)
  {
  }

  /** Because parity is rebuilt from abortion, a late miscarriage can lower parity:
      five earlier deliveries and no abortion leave parity 1. */
  lemma LateMiscarriageCanLowerParity()
    ensures var r := Record(None, Some(5), Some(0), false, ThirdTrimester, 0, None, "");
      RecordOutcome(r, "miscarriage", DeliveryRequest(None, None, None, None, None, false), 21).value.0.parity == Some(1)
  {
  }

  /** `update` does not look at isDone: on a closed record with an lmp the status is
      put back to a date-derived one while isDone stays true. */
  lemma UpdateReopensStatus(r: Record, fields: UpdateFields, weeks: int)
    requires r.isDone && r.lmp.Some?
    ensures UpdatedRecord(r, fields, weeks).isDone
    ensures IsDateDerived(UpdatedRecord(r, fields, weeks).pregnancyStatus)
  {
  }

  /** `store` and `update` leave the status alone exactly when there is no lmp,
      and otherwise set it from the classifier. */
  lemma StatusRefreshNeedsLmp(fields: Record, r: Record, u: UpdateFields,
                              year: nat, dailyCount: nat, id: nat, weeks: int)
    ensures fields.lmp.None? ==> StoredRecord(fields, year, dailyCount, id, weeks).pregnancyStatus == fields.pregnancyStatus
    ensures fields.lmp.Some? ==> StoredRecord(fields, year, dailyCount, id, weeks).pregnancyStatus == CalculatePregnancyStatus(weeks)
    ensures r.lmp.None? ==> UpdatedRecord(r, u, weeks).pregnancyStatus == r.pregnancyStatus
    ensures r.lmp.Some? ==> UpdatedRecord(r, u, weeks).pregnancyStatus == CalculatePregnancyStatus(weeks)
  {
  }

  lemma ShortWidths(a: nat, b: nat)
    requires a < 100 && b < 1000
    ensures PaddedWidth(a, 2) == 2 && PaddedWidth(b, 3) == 3
  {
    assert NumDigits(a / 10) == 1;
    assert NumDigits(b / 10 / 10) == 1;
    assert NumDigits(b / 10) <= 2;
  }

  /** The tracking number `store` assigns reads back as year, daily count and id. */
  lemma TrackingNumberFormat(fields: Record, year: nat, dailyCount: nat, id: nat, weeks: int)
    requires 1000 <= year <= 9999 && dailyCount < 100 && id < 1000
    ensures var n := StoredRecord(fields, year, dailyCount, id, weeks).trackingNumber;
      && |n| == 9 && AllDigits(n)
      && DigitsValue(n[..4]) == year && DigitsValue(n[4..6]) == dailyCount && DigitsValue(n[6..]) == id
  {
    DailySequenceNumberDecode(year, dailyCount, id);
    FourDigits(year);
    NatToStringRoundTrip(year);
    ShortWidths(dailyCount, id);
  }

  // ---------------------------------------------------------------------
  // The row, updated in place

  class PregnancyTracking {
    var lmp: Option<Date>
    var parity: Option<int>
    var abortion: Option<int>
    var isDone: bool
    var pregnancyStatus: Status
    var ancGiven: int
    var delivery: Option<DeliveryDetails>
    var trackingNumber: string

    function Snapshot(): Record
      reads this
    {
      Record(lmp, parity, abortion, isDone, pregnancyStatus, ancGiven, delivery, trackingNumber)
    }

    /** `store`: create the row from the request fields, then give it its tracking
        number and, when lmp is present, its status. */
    constructor Store(fields: Record, year: nat, dailyCount: nat, id: nat, weeks: int)
      ensures Snapshot() == StoredRecord(fields, year, dailyCount, id, weeks)
    {
      lmp := fields.lmp;
      parity := fields.parity;
      abortion := fields.abortion;
      isDone := fields.isDone;
      pregnancyStatus := fields.pregnancyStatus;
      ancGiven := fields.ancGiven;
      delivery := fields.delivery;
      trackingNumber := DailySequenceNumber(year, dailyCount, id);
      if fields.lmp.Some? {
        pregnancyStatus := CalculatePregnancyStatus(weeks);
      }
    }

    /** `update`: recompute the status from the stored lmp, then write the fields. */
    method Update(fields: UpdateFields, weeksFromStoredLmp: int)
      modifies this
      ensures Snapshot() == UpdatedRecord(old(Snapshot()), fields, weeksFromStoredLmp)
    {
      if lmp.Some? {
        pregnancyStatus := CalculatePregnancyStatus(weeksFromStoredLmp);
      }
      lmp, parity, abortion := fields.lmp, fields.parity, fields.abortion;
    }

    /** `update_pregnancy`: record a miscarriage or a delivery. */
    method UpdatePregnancy(outcomeType: string, req: DeliveryRequest, weeksSinceLmp: int)
      returns (reply: Result<string>)
      modifies this
      ensures var out := RecordOutcome(old(Snapshot()), outcomeType, req, weeksSinceLmp);
        && (out.Ok? ==> Snapshot() == out.value.0 && reply == Ok(out.value.1))
        && (out.Err? ==> Snapshot() == old(Snapshot()) && reply == Err(out.message))
    {
      if outcomeType == "miscarriage" {
        if weeksSinceLmp > 20 {
          isDone, parity, pregnancyStatus := true, Some(AsInt(abortion) + 1), MiscarriageAbortion;
          return Ok(MiscarriageLateMessage);
        }
        isDone, abortion, pregnancyStatus := true, Some(AsInt(abortion) + 1), MiscarriageAbortion;
        return Ok(MiscarriageEarlyMessage);
      }
      var details := ValidateDelivery(req);
      if details.None? {
        return Err(ValidationMessage);
      }
      var isMiscarriageBefore := pregnancyStatus == MiscarriageAbortion;
      var updatedParity := AsInt(parity);
      var updatedAbortion := AsInt(abortion);
      if weeksSinceLmp > 20 {
        if isMiscarriageBefore {
          updatedParity := if updatedParity >= 0 then updatedParity else 0;
        } else {
          updatedParity := updatedParity + 1;
        }
      } else {
        updatedAbortion := if updatedAbortion - 1 >= 0 then updatedAbortion - 1 else 0;
      }
      isDone, pregnancyStatus, ancGiven := true, Completed, 1;
      abortion, parity, delivery := Some(updatedAbortion), Some(updatedParity), details;
      reply := Ok(DeliveryMessage);
    }
  }
}
