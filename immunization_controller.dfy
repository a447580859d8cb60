/** PrenatalOutPatientImmunizationController: recording a prenatal visit together with
    its out-patient entry, an immunization record in the third trimester, and the
    completion of the day's scheduled appointment; and updating the latest visit.

    The database is an in-memory store: trackings keyed by id, and append-only
    tables whose auto-increment id is the row's position plus one. A failed call
    leaves the store as it was, since the source runs inside a transaction. */
module PrenatalOutPatientImmunizationController {
  import opened Common
  import PT = PregnancyTrackingController
  import IR = ImmunizationRequest

  /** The columns of a pregnancy_trackings row the controller reads; `doctor` is
      the assigned doctor's full name, None when no doctor is linked. */
  datatype Tracking = Tracking(isDone: bool, status: PT.Status, phic: bool, doctor: Option<string>)

  datatype PrenatalVisit = PrenatalVisit(id: nat, trackingId: nat, fields: IR.Request, attendingPhysician: string)

  datatype OutPatient = OutPatient(
    id: nat, trackingId: nat, createdOn: Date, fields: IR.Request,
    fileNumber: string, phic: string, attendingPhysician: string)

  datatype VaccineRow = VaccineRow(id: nat, fields: map<string, IR.Value>)

  /** An immunization record; an absent vaccine group has a null id. */
  datatype Immunization = Immunization(
    id: nat, trackingId: IR.Value, prenatalVisitId: nat,
    tetanusId: Option<nat>, covidId: Option<nat>, otherId: Option<nat>)

  datatype Appointment = Appointment(id: nat, trackingId: nat, date: Date, status: string)

  datatype Db = Db(
    trackings: map<nat, Tracking>,
    visits: seq<PrenatalVisit>,
    outPatients: seq<OutPatient>,
    tetanus: seq<VaccineRow>,
    covid: seq<VaccineRow>,
    other: seq<VaccineRow>,
    immunizations: seq<Immunization>,
    appointments: seq<Appointment>)

  const TrackingNotFoundMessage := "No query results for model [App\\Models\\PregnancyTracking]."
  const NoDoctorMessage := "Attempt to read property \"fullname\" on null"
  const NoActiveTrackingMessage := "No active pregnancy tracking found."
  const NoRowMessage := "Call to a member function only() on null"
  const ImmunizationMessage := "Prenatal visit and immunization records saved successfully!"
  const PrenatalMessage := "Prenatal care recorded successfully!"
  const UpdatedMessage := "Prenatal care updated successfully!"

  /** `phic ? 'yes' : 'no'`. */
  function PhicText(phic: bool): (r: string)
    ensures r == "yes" <==> phic
    ensures r == "no" <==> !phic
  {
    if phic then "yes" else "no"
  }

  /** isThirdTrimester: the tracking with this id, done or not, is in its third trimester. */
  predicate IsThirdTrimester(s: Db, trackingId: nat)
  {
    trackingId in s.trackings && s.trackings[trackingId].status == PT.ThirdTrimester
  }

  /** validated(): the fields that have a rule and are present in the request. */
  function Validated(req: IR.Request, thirdTrimester: bool): IR.Request
  {
    IR.Only(req, IR.PrenatalKeys + (if thirdTrimester then IR.VaccineKeys else []))
  }

  /** The number of out-patients created on `day`. */
  function CountCreatedOn(ops: seq<OutPatient>, day: Date): nat
  {
    if ops == [] then 0
    else CountCreatedOn(ops[..|ops| - 1], day) + (if ops[|ops| - 1].createdOn == day then 1 else 0)
  }

  /** The tracking's appointment dated `day` that is still scheduled: the first one. */
  predicate IsDue(a: Appointment, trackingId: nat, day: Date)
  {
    a.trackingId == trackingId && a.date == day && a.status == "scheduled"
  }

  function FirstDue(appts: seq<Appointment>, trackingId: nat, day: Date): (r: Option<nat>)
    ensures r.Some? ==> r.value < |appts| && IsDue(appts[r.value], trackingId, day)
    ensures r.Some? ==> forall j :: 0 <= j < r.value ==> !IsDue(appts[j], trackingId, day)
    ensures r.None? ==> forall j :: 0 <= j < |appts| ==> !IsDue(appts[j], trackingId, day)
  {
    if appts == [] then None
    else if IsDue(appts[0], trackingId, day) then Some(0)
    else match FirstDue(appts[1..], trackingId, day)
      case None => None
      case Some(i) => Some(i + 1)
  }

  /** The appointments after the due one, if any, is marked completed. */
  function CompleteDue(appts: seq<Appointment>, trackingId: nat, day: Date): seq<Appointment>
  {
    match FirstDue(appts, trackingId, day)
    case None => appts
    case Some(i) => appts[i := appts[i].(status := "completed")]
  }

  /** The position of the last entry equal to `trackingId` in a column of tracking
      ids, if any: the row `latest()->first()` picks among the tracking's rows,
      since ids grow with position. */
  function LatestOf(ids: seq<nat>, trackingId: nat): (r: Option<nat>)
    ensures r.Some? ==> r.value < |ids| && ids[r.value] == trackingId
    ensures r.Some? ==> forall j :: r.value < j < |ids| ==> ids[j] != trackingId
    ensures r.None? ==> forall j :: 0 <= j < |ids| ==> ids[j] != trackingId
  {
    if ids == [] then None
    else if ids[|ids| - 1] == trackingId then Some(|ids| - 1)
    else LatestOf(ids[..|ids| - 1], trackingId)
  }

  /** The pregnancy_tracking_id column of the visits. */
  function VisitTrackingIds(vs: seq<PrenatalVisit>): seq<nat>
  {
    seq(|vs|, i requires 0 <= i < |vs| => vs[i].trackingId)
  }

  /** The pregnancy_tracking_id column of the out-patients. */
  function OutPatientTrackingIds(ops: seq<OutPatient>): seq<nat>
  {
    seq(|ops|, i requires 0 <= i < |ops| => ops[i].trackingId)
  }

  /** The request's pregnancy_tracking_id, which the validation requires, is the
      tracking's id in decimal. */
  predicate NamesTracking(req: IR.Request, trackingId: nat)
  {
    "pregnancy_tracking_id" in req && req["pregnancy_tracking_id"] == IR.Text(NatToString(trackingId))
  }

  /** The vaccine rows and the immunization record for one visit. */
  function AddImmunization(s: Db, vd: IR.VaccineData, visitId: nat): Db
  {
    var tetanusId := if vd.tetanus.Some? then Some(|s.tetanus| + 1) else None;
    var covidId := if vd.covid.Some? then Some(|s.covid| + 1) else None;
    var otherId := if vd.other.Some? then Some(|s.other| + 1) else None;
    s.(tetanus := s.tetanus + (if vd.tetanus.Some? then [VaccineRow(|s.tetanus| + 1, vd.tetanus.value)] else []),
       covid := s.covid + (if vd.covid.Some? then [VaccineRow(|s.covid| + 1, vd.covid.value)] else []),
       other := s.other + (if vd.other.Some? then [VaccineRow(|s.other| + 1, vd.other.value)] else []),
       immunizations := s.immunizations
         + [Immunization(|s.immunizations| + 1, vd.trackingId, visitId, tetanusId, covidId, otherId)])
  }

  /** The out-patient store creates: the next id, created today, with the file
      number built from the year, today's count (itself included) and its id. */
  function NewOutPatient(s: Db, trackingId: nat, t: Tracking, validated: IR.Request, today: Date): OutPatient
    requires t.doctor.Some? && 0 <= today.year
  {
    var opId := |s.outPatients| + 1;
    var fileNumber := DailySequenceNumber(today.year, CountCreatedOn(s.outPatients, today) + 1, opId);
    OutPatient(opId, trackingId, today, validated, fileNumber, PhicText(t.phic), t.doctor.value)
  }

  /** The tracking is open and has a doctor: the guard both store and update pass. */
  predicate OpenWithDoctor(s: Db, trackingId: nat)
  {
    trackingId in s.trackings && !s.trackings[trackingId].isDone && s.trackings[trackingId].doctor.Some?
  }

  /** The specification of store: the new store and the message, or the error. */
  function StoreOutcome(s: Db, req: IR.Request, trackingId: nat, today: Date): Result<(Db, string)>
    requires NamesTracking(req, trackingId) && 0 <= today.year
  {
    if trackingId !in s.trackings || s.trackings[trackingId].isDone then Err(TrackingNotFoundMessage)
    else
      var t := s.trackings[trackingId];
      if t.doctor.None? then Err(NoDoctorMessage)
      else
        var third := IsThirdTrimester(s, trackingId);
        var validated := Validated(req, third);
        var physician := t.doctor.value;
        var visit := PrenatalVisit(|s.visits| + 1, trackingId, validated, physician);
        var op := NewOutPatient(s, trackingId, t, validated, today);
        var s1 := s.(visits := s.visits + [visit], outPatients := s.outPatients + [op]);
        var immunize := t.status == PT.ThirdTrimester && IR.HasVaccineData(req, third);
        var s2 := if immunize then AddImmunization(s1, IR.VaccineDataOf(req, third).value, visit.id) else s1;
        Ok((s2.(appointments := CompleteDue(s.appointments, trackingId, today)),
            if immunize then ImmunizationMessage else PrenatalMessage))
  }

  /** The specification of update: the latest visit and out-patient of an active
      tracking take the validated fields, the physician and the phic flag. */
  function UpdateOutcome(s: Db, req: IR.Request, trackingId: nat): Result<(Db, string)>
    requires NamesTracking(req, trackingId)
  {
    if trackingId !in s.trackings || s.trackings[trackingId].isDone then Err(NoActiveTrackingMessage)
    else
      var t := s.trackings[trackingId];
      if t.doctor.None? then Err(NoDoctorMessage)
      else
        var vi := LatestOf(VisitTrackingIds(s.visits), trackingId);
        var oi := LatestOf(OutPatientTrackingIds(s.outPatients), trackingId);
        if vi.None? || oi.None? then Err(NoRowMessage)
        else
          var validated := Validated(req, IsThirdTrimester(s, trackingId));
          var physician := t.doctor.value;
          var v := s.visits[vi.value];
          var op := s.outPatients[oi.value];
          Ok((s.(visits := s.visits[vi.value := v.(fields := v.fields + validated, attendingPhysician := physician)],
                 outPatients := s.outPatients[oi.value := op.(fields := op.fields + validated,
                                                              phic := PhicText(t.phic),
                                                              attendingPhysician := physician)]),
              UpdatedMessage))
  }

  // ---------------------------------------------------------------------
  // Properties of store

  lemma CountCreatedOnSnoc(ops: seq<OutPatient>, op: OutPatient, day: Date)
    ensures CountCreatedOn(ops + [op], day) == CountCreatedOn(ops, day) + (if op.createdOn == day then 1 else 0)
  {
    assert (ops + [op])[..|ops|] == ops;
  }

  /** Without an open tracking, or without its doctor, store fails and nothing changes;
      otherwise it succeeds. */
  lemma StoreGuard(s: Db, req: IR.Request, trackingId: nat, today: Date)
    requires NamesTracking(req, trackingId) && 0 <= today.year
    ensures StoreOutcome(s, req, trackingId, today).Ok? <==> OpenWithDoctor(s, trackingId)
    ensures trackingId !in s.trackings || s.trackings[trackingId].isDone ==>
      StoreOutcome(s, req, trackingId, today) == Err(TrackingNotFoundMessage)
  {
  }

  /** A successful store appends one visit and one out-patient for the tracking;
      phic is "yes" exactly when the tracking's is set, and both rows carry the
      doctor's name. Trackings are left as they are. */
  lemma StoreRows(s: Db, req: IR.Request, trackingId: nat, today: Date)
    requires NamesTracking(req, trackingId) && 0 <= today.year && OpenWithDoctor(s, trackingId)
    ensures var s' := StoreOutcome(s, req, trackingId, today).value.0;
      var t := s.trackings[trackingId];
      && |s'.visits| == |s.visits| + 1 && s'.visits[..|s.visits|] == s.visits
      && |s'.outPatients| == |s.outPatients| + 1 && s'.outPatients[..|s.outPatients|] == s.outPatients
      && s'.trackings == s.trackings
      && var v := s'.visits[|s.visits|];
         var op := s'.outPatients[|s.outPatients|];
         && v.trackingId == trackingId && op.trackingId == trackingId && op.createdOn == today
         && v.attendingPhysician == t.doctor.value && op.attendingPhysician == t.doctor.value
         && (op.phic == "yes" <==> t.phic) && (op.phic == "no" <==> !t.phic)
  {
  }

  /** The out-patient store appends is NewOutPatient. */
  lemma StoreAppendsOutPatient(s: Db, req: IR.Request, trackingId: nat, today: Date)
    requires NamesTracking(req, trackingId) && 0 <= today.year && OpenWithDoctor(s, trackingId)
    ensures StoreOutcome(s, req, trackingId, today).value.0.outPatients == s.outPatients
      + [NewOutPatient(s, trackingId, s.trackings[trackingId], Validated(req, IsThirdTrimester(s, trackingId)), today)]
  {
  }

  /** The new out-patient's file number is the sequence number built from the year,
      the number of out-patients created today (itself included) and its id; the
      three parts read back from it (`DailySequenceNumberDecode`). */
  lemma FileNumberDecodes(s: Db, trackingId: nat, t: Tracking, validated: IR.Request, today: Date)
    requires t.doctor.Some? && 0 <= today.year
    ensures var op := NewOutPatient(s, trackingId, t, validated, today);
      var count := CountCreatedOn(s.outPatients + [op], today);
      && op.id == |s.outPatients| + 1
      && count == CountCreatedOn(s.outPatients, today) + 1
      && op.fileNumber == DailySequenceNumber(today.year, count, op.id)
      && AllDigits(op.fileNumber)
  {
    var op := NewOutPatient(s, trackingId, t, validated, today);
    assert op.createdOn == today;
    CountCreatedOnSnoc(s.outPatients, op, today);
    DailySequenceNumberDecode(today.year, CountCreatedOn(s.outPatients, today) + 1, op.id);
  }

  /** An immunization record is added exactly when the tracking is in its third
      trimester and there is vaccine data; it points at the new visit, and each
      vaccine id is null exactly when its group is absent. The message names the
      immunization exactly when a record was added. */
  lemma StoreImmunization(s: Db, req: IR.Request, trackingId: nat, today: Date)
    requires NamesTracking(req, trackingId) && 0 <= today.year && OpenWithDoctor(s, trackingId)
    ensures var (s', message) := StoreOutcome(s, req, trackingId, today).value;
      var immunized := s.trackings[trackingId].status == PT.ThirdTrimester && IR.HasVaccineData(req, true);
      && (|s'.immunizations| == |s.immunizations| + 1 <==> immunized)
      && (!immunized ==> s'.immunizations == s.immunizations && s'.tetanus == s.tetanus
                         && s'.covid == s.covid && s'.other == s.other)
      && (message == ImmunizationMessage <==> immunized)
      && (message == PrenatalMessage <==> !immunized)
      && (immunized ==>
            var rec := s'.immunizations[|s.immunizations|];
            var vd := IR.VaccineDataOf(req, true).value;
            && s'.immunizations[..|s.immunizations|] == s.immunizations
            && rec.prenatalVisitId == s'.visits[|s.visits|].id
            && rec.trackingId == IR.Text(NatToString(trackingId))
            && (rec.tetanusId.None? <==> vd.tetanus.None?)
            && (rec.covidId.None? <==> vd.covid.None?)
            && (rec.otherId.None? <==> vd.other.None?)
            && (rec.tetanusId.Some? ==> s'.tetanus[rec.tetanusId.value - 1] == VaccineRow(rec.tetanusId.value, vd.tetanus.value))
            && (rec.covidId.Some? ==> s'.covid[rec.covidId.value - 1] == VaccineRow(rec.covidId.value, vd.covid.value))
            && (rec.otherId.Some? ==> s'.other[rec.otherId.value - 1] == VaccineRow(rec.otherId.value, vd.other.value)))
  {
  }

  /** Only the tracking's first appointment dated today and still scheduled changes,
      and only its status, to completed; every other appointment is untouched. */
  lemma CompleteDueChangesOne(appts: seq<Appointment>, trackingId: nat, day: Date)
    ensures |CompleteDue(appts, trackingId, day)| == |appts|
    ensures forall j :: 0 <= j < |appts| && CompleteDue(appts, trackingId, day)[j] != appts[j] ==>
      IsDue(appts[j], trackingId, day)
      && CompleteDue(appts, trackingId, day)[j] == appts[j].(status := "completed")
      && forall k :: 0 <= k < |appts| && k != j ==> CompleteDue(appts, trackingId, day)[k] == appts[k]
    ensures (exists j :: 0 <= j < |appts| && IsDue(appts[j], trackingId, day)) <==>
      CompleteDue(appts, trackingId, day) != appts
  {
    var r := CompleteDue(appts, trackingId, day);
    var due := FirstDue(appts, trackingId, day);
    if due.Some? {
      assert r[due.value] != appts[due.value];
    }
  }

  /** Hence store marks at most the one due appointment completed. */
  lemma StoreAppointments(s: Db, req: IR.Request, trackingId: nat, today: Date)
    requires NamesTracking(req, trackingId) && 0 <= today.year && OpenWithDoctor(s, trackingId)
    ensures var s' := StoreOutcome(s, req, trackingId, today).value.0;
      && |s'.appointments| == |s.appointments|
      && forall j :: 0 <= j < |s.appointments| && s'.appointments[j] != s.appointments[j] ==>
           IsDue(s.appointments[j], trackingId, today) && s'.appointments[j].status == "completed"
           && s'.appointments[j].id == s.appointments[j].id
  {
    CompleteDueChangesOne(s.appointments, trackingId, today);
  }

  // ---------------------------------------------------------------------
  // Properties of update

  /** update throws when no open tracking has the id, when the tracking has no
      doctor, or when it has no visit or no out-patient; it succeeds otherwise. */
  lemma UpdateGuard(s: Db, req: IR.Request, trackingId: nat)
    requires NamesTracking(req, trackingId)
    ensures trackingId !in s.trackings || s.trackings[trackingId].isDone ==>
      UpdateOutcome(s, req, trackingId) == Err(NoActiveTrackingMessage)
    ensures UpdateOutcome(s, req, trackingId).Ok? <==>
      && OpenWithDoctor(s, trackingId)
      && (exists j :: 0 <= j < |s.visits| && s.visits[j].trackingId == trackingId)
      && (exists j :: 0 <= j < |s.outPatients| && s.outPatients[j].trackingId == trackingId)
  {
    var ids, opIds := VisitTrackingIds(s.visits), OutPatientTrackingIds(s.outPatients);
    assert forall j :: 0 <= j < |s.visits| ==> ids[j] == s.visits[j].trackingId;
    assert forall j :: 0 <= j < |s.outPatients| ==> opIds[j] == s.outPatients[j].trackingId;
  }

  /** A successful update rewrites only the tracking's latest visit and latest
      out-patient: their fields take the validated values, the physician becomes
      the doctor's name and phic is "yes" exactly when the tracking's is set. */
  lemma UpdateTouchesLatest(s: Db, req: IR.Request, trackingId: nat)
    requires NamesTracking(req, trackingId) && OpenWithDoctor(s, trackingId)
    requires trackingId in VisitTrackingIds(s.visits) && trackingId in OutPatientTrackingIds(s.outPatients)
    ensures var s' := UpdateOutcome(s, req, trackingId).value.0;
      var t := s.trackings[trackingId];
      var vi := LatestOf(VisitTrackingIds(s.visits), trackingId).value;
      var oi := LatestOf(OutPatientTrackingIds(s.outPatients), trackingId).value;
      var validated := Validated(req, IsThirdTrimester(s, trackingId));
      && |s'.visits| == |s.visits| && |s'.outPatients| == |s.outPatients|
      && (forall j :: 0 <= j < |s.visits| && j != vi ==> s'.visits[j] == s.visits[j])
      && (forall j :: 0 <= j < |s.outPatients| && j != oi ==> s'.outPatients[j] == s.outPatients[j])
      && (forall k :: k in validated ==> k in s'.visits[vi].fields && s'.visits[vi].fields[k] == validated[k])
      && (forall k :: k in validated ==> k in s'.outPatients[oi].fields && s'.outPatients[oi].fields[k] == validated[k])
      && s'.visits[vi].id == s.visits[vi].id && s'.outPatients[oi].id == s.outPatients[oi].id
      && s'.outPatients[oi].fileNumber == s.outPatients[oi].fileNumber
      && s'.visits[vi].attendingPhysician == t.doctor.value
      && s'.outPatients[oi].attendingPhysician == t.doctor.value
      && (s'.outPatients[oi].phic == "yes" <==> t.phic)
      && s'.trackings == s.trackings && s'.appointments == s.appointments
      && s'.immunizations == s.immunizations
  {
    var vi := LatestOf(VisitTrackingIds(s.visits), trackingId);
    var oi := LatestOf(OutPatientTrackingIds(s.outPatients), trackingId);
    assert vi.Some? && oi.Some?;
    var t := s.trackings[trackingId];
    var validated := Validated(req, IsThirdTrimester(s, trackingId));
    var v := s.visits[vi.value];
    var op := s.outPatients[oi.value];
    var v' := v.(fields := v.fields + validated, attendingPhysician := t.doctor.value);
    var op' := op.(fields := op.fields + validated, phic := PhicText(t.phic), attendingPhysician := t.doctor.value);
    assert UpdateOutcome(s, req, trackingId).value.0
      == s.(visits := s.visits[vi.value := v'], outPatients := s.outPatients[oi.value := op']);
  }

  // ---------------------------------------------------------------------
  // The controller over a mutable store

  class Clinic {
    var trackings: map<nat, Tracking>
    var visits: seq<PrenatalVisit>
    var outPatients: seq<OutPatient>
    var tetanus: seq<VaccineRow>
    var covid: seq<VaccineRow>
    var other: seq<VaccineRow>
    var immunizations: seq<Immunization>
    var appointments: seq<Appointment>

    function Snapshot(): Db
      reads this
    {
      Db(trackings, visits, outPatients, tetanus, covid, other, immunizations, appointments)
    }

    constructor (s: Db)
      ensures Snapshot() == s
    {
      trackings, visits, outPatients := s.trackings, s.visits, s.outPatients;
      tetanus, covid, other := s.tetanus, s.covid, s.other;
      immunizations, appointments := s.immunizations, s.appointments;
    }

    /** Creates the vaccine rows present in `vd` and the immunization record. */
    method CreateImmunization(vd: IR.VaccineData, visitId: nat)
      modifies this
      ensures Snapshot() == AddImmunization(old(Snapshot()), vd, visitId)
    {
      var tetanusId: Option<nat> := None;
      var covidId: Option<nat> := None;
      var otherId: Option<nat> := None;
      if vd.tetanus.Some? {
        tetanusId := Some(|tetanus| + 1);
        tetanus := tetanus + [VaccineRow(|tetanus| + 1, vd.tetanus.value)];
      }
      if vd.covid.Some? {
        covidId := Some(|covid| + 1);
        covid := covid + [VaccineRow(|covid| + 1, vd.covid.value)];
      }
      if vd.other.Some? {
        otherId := Some(|other| + 1);
        other := other + [VaccineRow(|other| + 1, vd.other.value)];
      }
      immunizations := immunizations
        + [Immunization(|immunizations| + 1, vd.trackingId, visitId, tetanusId, covidId, otherId)];
    }

    /** Marks the tracking's first appointment scheduled for `today` completed. */
    method CompleteAppointment(trackingId: nat, today: Date)
      modifies this
      ensures Snapshot() == old(Snapshot()).(appointments := CompleteDue(old(appointments), trackingId, today))
    {
      var due := FirstDue(appointments, trackingId, today);
      if due.Some? {
        appointments := appointments[due.value := appointments[due.value].(status := "completed")];
      }
    }

    /** The prenatal visit and the out-patient of store; the out-patient's file
        number counts the rows created today, itself included. */
    method CreateRows(trackingId: nat, tracking: Tracking, validated: IR.Request, today: Date)
      returns (visit: PrenatalVisit)
      requires tracking.doctor.Some? && 0 <= today.year
      modifies this
      ensures visit == PrenatalVisit(|old(visits)| + 1, trackingId, validated, tracking.doctor.value)
      ensures Snapshot() == old(Snapshot()).(visits := old(visits) + [visit],
        outPatients := old(outPatients) + [NewOutPatient(old(Snapshot()), trackingId, tracking, validated, today)])
    {
      var physician := tracking.doctor.value;
      ghost var before := Snapshot();
      visit := PrenatalVisit(|visits| + 1, trackingId, validated, physician);
      visits := visits + [visit];

      var outPatient := OutPatient(|outPatients| + 1, trackingId, today, validated, "", "", physician);
      outPatients := outPatients + [outPatient];
      var dailyCount := CountCreatedOn(outPatients, today);
      CountCreatedOnSnoc(before.outPatients, outPatient, today);
      var fileNumber := DailySequenceNumber(today.year, dailyCount, outPatient.id);
      outPatient := outPatient.(fileNumber := fileNumber, phic := PhicText(tracking.phic), attendingPhysician := physician);
      outPatients := outPatients[|outPatients| - 1 := outPatient];
      assert outPatients == before.outPatients + [outPatient];
    }

    /** store: creates the rows step by step. */
    method Store(req: IR.Request, trackingId: nat, today: Date) returns (reply: Result<string>)
      requires NamesTracking(req, trackingId) && 0 <= today.year
      modifies this
      ensures var out := StoreOutcome(old(Snapshot()), req, trackingId, today);
        && (out.Ok? ==> Snapshot() == out.value.0 && reply == Ok(out.value.1))
        && (out.Err? ==> Snapshot() == old(Snapshot()) && reply == Err(out.message))
    {
      if trackingId !in trackings || trackings[trackingId].isDone {
        return Err(TrackingNotFoundMessage);
      }
      var tracking := trackings[trackingId];
      if tracking.doctor.None? {
        return Err(NoDoctorMessage);
      }
      var third := IsThirdTrimester(Snapshot(), trackingId);
      var validated := Validated(req, third);
      var visit := CreateRows(trackingId, tracking, validated, today);

      var hasImmunization := false;
      if tracking.status == PT.ThirdTrimester && IR.HasVaccineData(req, third) {
        var vaccineData := IR.GetVaccineData(req, third);
        CreateImmunization(vaccineData.value, visit.id);
        hasImmunization := true;
      }

      CompleteAppointment(trackingId, today);

      var message := PrenatalMessage;
      if hasImmunization {
        message := ImmunizationMessage;
      }
      reply := Ok(message);
    }

    /** update: guards on an open tracking, then rewrites the latest visit and
        out-patient. */
    method Update(req: IR.Request, trackingId: nat) returns (reply: Result<string>)
      requires NamesTracking(req, trackingId)
      modifies this
      ensures var out := UpdateOutcome(old(Snapshot()), req, trackingId);
        && (out.Ok? ==> Snapshot() == out.value.0 && reply == Ok(out.value.1))
        && (out.Err? ==> Snapshot() == old(Snapshot()) && reply == Err(out.message))
    {
      var validated := Validated(req, IsThirdTrimester(Snapshot(), trackingId));
      var vi := LatestOf(VisitTrackingIds(visits), trackingId);
      if trackingId !in trackings || trackings[trackingId].isDone {
        return Err(NoActiveTrackingMessage);
      }
      var tracking := trackings[trackingId];
      if tracking.doctor.None? {
        return Err(NoDoctorMessage);
      }
      var physician := tracking.doctor.value;
      if vi.None? {
        return Err(NoRowMessage);
      }
      var oi := LatestOf(OutPatientTrackingIds(outPatients), trackingId);
      if oi.None? {
        return Err(NoRowMessage);
      }
      var visit := visits[vi.value];
      visits := visits[vi.value := visit.(fields := visit.fields + validated, attendingPhysician := physician)];
      var outPatient := outPatients[oi.value];
      outPatients := outPatients[oi.value := outPatient.(fields := outPatient.fields + validated,
                                                         phic := PhicText(tracking.phic),
                                                         attendingPhysician := physician)];
      reply := Ok(UpdatedMessage);
    }
  }
}
