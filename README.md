# Prenatal clinic records — a Dafny model

This project models the core of a maternal-health clinic system. The Laravel
backend keeps pregnancy trackings, prenatal visits, out-patient records,
immunizations and appointments. The React frontend registers patients through a
wizard, records visits through a unified form and exports an appointment report
as a workbook.

The model covers:

- the pregnancy-tracking controller: the status classifier, store, update and
  the miscarriage and delivery outcomes;
- the prenatal out-patient and immunization controller: store and update over a
  database snapshot, and the daily file number;
- the immunization request: the rules, the prenatal data and the vaccine groups;
- the prenatal out-patient value resource: age of gestation and the fields it
  returns;
- the registration wizard: the risk-code rows, the age-driven A/B codes, the
  gravidity-driven D code, the lmp-to-edc computation and the risk-code option
  filter;
- the unified form: the step cursor, the input handlers and the fetal heart tone;
- the appointment report: column filtering, header text, column widths, the
  status, priority and stage sheets, month grouping and sorting, and the summary.

Modules:

- `Common`: dates, decimal rendering and padding, the daily sequence number,
  ASCII lower-casing and string order.
- `PregnancyTrackingController`: the tracking row as a class, with its store,
  update and outcome operations.
- `ImmunizationRequest`: the form request.
- `PrenatalOutPatientImmunizationController`: the database as a class, with
  store and update proved against `StoreOutcome` and `UpdateOutcome`.
- `PrenatalOutPatientValueResource`: the resource's `toArray`.
- `RiskEntries`: the risk-code rows and the rules several wizard steps share.
- `PatientTypeStep`, `NewPatientBasicInfo`, `HealthInformationStep` and
  `RiskCodes`: the wizard steps.
- `UnifiedForm`: the form's state as a class.
- `AppointmentReports`: the report export.

Where the source does one thing and its description another, the model follows
the source:

- A late miscarriage sets parity to the old abortion count plus one.
- `update_pregnancy` has no guard against an already closed record.
- `update` recomputes the status from the lmp stored before the update.
- The patient-type step appends D without looking for one already there.
- For an existing patient, the form gets the stored gravidity plus one, but D
  is decided on the stored gravidity.
- The lmp date picker's year follows JavaScript's `Date` convention, so years
  0 to 99 are read as 1900 to 1999.
- A pulse-rate text that reads as no number gives a Normal heart tone.
- The missed-appointments sheet is named "Missed Appoinments", as the program
  spells it.
- The `$id` parameter of the immunization controller's `update` is unused: the
  tracking is the one the request's `pregnancy_tracking_id` names. Store and
  update take that id as a number and require the request to carry it in
  decimal (`NamesTracking`), which the request's validation guarantees.
- The value resource reads the active tracking's gravidity without checking
  that the query found one, so without an active tracking it fails.
- In the risk-code selector, a blank gravidity hides D: JavaScript compares an
  empty field as 0. An unset or non-numeric one does not hide it.

## Model

| member | source | states |
|---|---|---|
| Common.DailySequenceNumberDecode | backend/app/Http/Controllers/PregnancyTrackingController.php:181-185 | the year, the daily count padded to two digits and the id padded to three read back from a tracking or file number, whatever their size |
| Common.TwoDigits | frontend/src/components/interfaces/form-wizard/HealthInformationStep.jsx:104-105 | `padStart(2, '0')` of a value below 100 takes two characters and reads back as the value |
| Common.NatToStringRoundTrip | backend/app/Http/Controllers/PregnancyTrackingController.php:183-185 | the decimal rendering of a count reads back as the count and takes as many characters as it has digits |
| Common.LexLessDigits | frontend/src/pages/reports/AppointmentReports.jsx:292 | for digit strings of one length, the default sort order is numeric order |
| Common.LexLessTotal | frontend/src/pages/reports/AppointmentReports.jsx:292 | the default sort compares any two distinct strings one way or the other |
| Common.LexLessTransitive | frontend/src/pages/reports/AppointmentReports.jsx:292 | the default sort order is transitive |
| PregnancyTrackingController.CalculatePregnancyStatus | backend/app/Http/Controllers/PregnancyTrackingController.php:334-347 | first trimester up to 12 weeks, second 13 to 27, third 28 to 40, postpartum from 41, each as an if-and-only-if |
| PregnancyTrackingController.ClassifierMonotone | backend/app/Http/Controllers/PregnancyTrackingController.php:334-347 | more elapsed weeks never give an earlier status |
| PregnancyTrackingController.ValidateDelivery | backend/app/Http/Controllers/PregnancyTrackingController.php:385-391 | delivery details pass exactly when every field is present and not blank once trimmed, the place of delivery is at most 255 characters and the delivery date parses as a date; the details are the request's values |
| PregnancyTrackingController.MiscarriageLate | backend/app/Http/Controllers/PregnancyTrackingController.php:360-371 | past 20 weeks a miscarriage closes the record, sets parity to the old abortion count plus one and keeps abortion |
| PregnancyTrackingController.MiscarriageEarly | backend/app/Http/Controllers/PregnancyTrackingController.php:373-381 | at 20 weeks or less a miscarriage closes the record and counts one more abortion, parity unchanged |
| PregnancyTrackingController.DeliveryCloses | backend/app/Http/Controllers/PregnancyTrackingController.php:385-439 | a delivery is rejected with the record unchanged exactly when validation fails (a missing or blank field, a place over 255 characters, an unparsable date), and otherwise completes the record |
| PregnancyTrackingController.DeliveryLateCounters | backend/app/Http/Controllers/PregnancyTrackingController.php:406-429 | past 20 weeks parity grows by one unless the record held a miscarriage, where it is only floored at zero |
| PregnancyTrackingController.DeliveryEarlyCounters | backend/app/Http/Controllers/PregnancyTrackingController.php:406-429 | at 20 weeks or less abortion drops by one but never below zero, parity keeps its coerced value |
| PregnancyTrackingController.OutcomeKeepsInvariant | backend/app/Http/Controllers/PregnancyTrackingController.php:349-466 | after a successful outcome the record is closed with a terminal status, and non-negative counters stay non-negative |
| PregnancyTrackingController.NoDoneGuard | backend/app/Http/Controllers/PregnancyTrackingController.php:354-382 | a closed record is not guarded: a second early miscarriage counts the abortion again |
| PregnancyTrackingController.LateMiscarriageCanLowerParity | backend/app/Http/Controllers/PregnancyTrackingController.php:364 | a late miscarriage after five deliveries and no abortion leaves parity 1 |
| PregnancyTrackingController.UpdateReopensStatus | backend/app/Http/Controllers/PregnancyTrackingController.php:287-292 | update on a closed record with an lmp puts back a date-derived status while isDone stays set |
| PregnancyTrackingController.StatusRefreshNeedsLmp | backend/app/Http/Controllers/PregnancyTrackingController.php:187-197 | store and update leave the status alone exactly when there is no lmp, and otherwise set it from the classifier |
| PregnancyTrackingController.TrackingNumberFormat | backend/app/Http/Controllers/PregnancyTrackingController.php:181-185 | for a four-digit year, a count below 100 and an id below 1000 the tracking number is nine digits reading back as year, count and id |
| PregnancyTrackingController.PregnancyTracking.Store | backend/app/Http/Controllers/PregnancyTrackingController.php:179-197 | the new row holds the request fields, the tracking number and, with an lmp, the classified status |
| PregnancyTrackingController.PregnancyTracking.Update | backend/app/Http/Controllers/PregnancyTrackingController.php:287-292 | the row becomes the update of its old state, the status taken from the lmp stored before the update |
| PregnancyTrackingController.PregnancyTracking.UpdatePregnancy | backend/app/Http/Controllers/PregnancyTrackingController.php:349-466 | the row becomes the outcome of its old state and the reply is its message, or the row is unchanged and the reply is the validation error |
| ImmunizationRequest.VaccineKeysPrefixed | backend/app/Http/Requests/StorePrenatalOutPatientImmunizationRequest.php:20-82 | every vaccine rule key carries a group prefix and no prenatal key does |
| ImmunizationRequest.Rules | backend/app/Http/Requests/StorePrenatalOutPatientImmunizationRequest.php:20-82 | the prenatal rules always, the vaccine rules exactly in the third trimester |
| ImmunizationRequest.Only | backend/app/Http/Requests/StorePrenatalOutPatientImmunizationRequest.php:87-108 | the result holds exactly the listed fields present in the request, with their values |
| ImmunizationRequest.PrenatalDataHasNoVaccineField | backend/app/Http/Requests/StorePrenatalOutPatientImmunizationRequest.php:87-108 | the prenatal data never carries a vaccine field |
| ImmunizationRequest.FilterGroupContents | backend/app/Http/Requests/StorePrenatalOutPatientImmunizationRequest.php:113-203 | a group holds exactly the non-empty fields of that group, each under its name without the prefix |
| ImmunizationRequest.GroupNonEmpty | backend/app/Http/Requests/StorePrenatalOutPatientImmunizationRequest.php:113-203 | a group is non-empty exactly when one of its fields is filled |
| ImmunizationRequest.FilterGroupLoop | backend/app/Http/Requests/StorePrenatalOutPatientImmunizationRequest.php:113-203 | the foreach over a group builds the filtered group |
| ImmunizationRequest.GetVaccineData | backend/app/Http/Requests/StorePrenatalOutPatientImmunizationRequest.php:113-203 | the groups the loops build are the vaccine data of the request |
| ImmunizationRequest.VaccineDataGroups | backend/app/Http/Requests/StorePrenatalOutPatientImmunizationRequest.php:113-203 | no vaccine data outside the third trimester; inside, the tracking id is kept and the tetanus and covid groups exist exactly when one of their fields is filled |
| ImmunizationRequest.OtherGroupNeedsName | backend/app/Http/Requests/StorePrenatalOutPatientImmunizationRequest.php:113-203 | the other-vaccine group exists exactly when its name is filled |
| ImmunizationRequest.VaccineFieldsRekeyed | backend/app/Http/Requests/StorePrenatalOutPatientImmunizationRequest.php:113-203 | each kept vaccine field holds the non-empty request value of the prefixed field |
| ImmunizationRequest.HasVaccineDataIff | backend/app/Http/Requests/StorePrenatalOutPatientImmunizationRequest.php:222-230 | there is vaccine data exactly in the third trimester with a tetanus or covid field filled or the other vaccine's name given |
| PrenatalOutPatientImmunizationController.PhicText | backend/app/Http/Controllers/PrenatalOutPatientImmunizationController.php:47-50 | "yes" exactly when the tracking's phic is set, otherwise "no" |
| PrenatalOutPatientImmunizationController.FirstDue | backend/app/Http/Controllers/PrenatalOutPatientImmunizationController.php:133-140 | the index found is the first scheduled appointment of the tracking dated today, and none is found when there is no such appointment |
| PrenatalOutPatientImmunizationController.LatestOf | backend/app/Http/Controllers/PrenatalOutPatientImmunizationController.php:188-190 | the index found is the last row of the tracking (used for the visits and the out-patients), and none is found when it has no row |
| PrenatalOutPatientImmunizationController.StoreGuard | backend/app/Http/Controllers/PrenatalOutPatientImmunizationController.php:27-31 | store fails with nothing changed exactly when there is no open tracking with a doctor for the id |
| PrenatalOutPatientImmunizationController.StoreRows | backend/app/Http/Controllers/PrenatalOutPatientImmunizationController.php:36-50 | a successful store appends one visit and one out-patient for the tracking with the doctor's name and the phic text, and trackings are untouched |
| PrenatalOutPatientImmunizationController.StoreAppendsOutPatient | backend/app/Http/Controllers/PrenatalOutPatientImmunizationController.php:39-50 | the appended out-patient is the next id, created today, with its file number |
| PrenatalOutPatientImmunizationController.FileNumberDecodes | backend/app/Http/Controllers/PrenatalOutPatientImmunizationController.php:41-45 | the file number is built from the year, the out-patients created today including the new one, and the new id, and is all digits |
| PrenatalOutPatientImmunizationController.StoreImmunization | backend/app/Http/Controllers/PrenatalOutPatientImmunizationController.php:84-130 | an immunization record pointing at the new visit and the request's tracking is added exactly in the third trimester with vaccine data, each vaccine id null exactly when its group is absent, and the message says so |
| PrenatalOutPatientImmunizationController.CompleteDueChangesOne | backend/app/Http/Controllers/PrenatalOutPatientImmunizationController.php:133-140 | only the first due appointment changes, and only its status, to completed |
| PrenatalOutPatientImmunizationController.StoreAppointments | backend/app/Http/Controllers/PrenatalOutPatientImmunizationController.php:133-140 | store marks at most the one due appointment completed |
| PrenatalOutPatientImmunizationController.UpdateGuard | backend/app/Http/Controllers/PrenatalOutPatientImmunizationController.php:183-194 | update fails exactly when there is no open tracking with a doctor, or it has no visit or no out-patient |
| PrenatalOutPatientImmunizationController.UpdateTouchesLatest | backend/app/Http/Controllers/PrenatalOutPatientImmunizationController.php:200-229 | a successful update rewrites only the latest visit and out-patient, with the validated fields, the doctor's name and the phic text |
| PrenatalOutPatientImmunizationController.Clinic.constructor | backend/app/Http/Controllers/PrenatalOutPatientImmunizationController.php:22-31 | the clinic holds the given database snapshot |
| PrenatalOutPatientImmunizationController.Clinic.CreateImmunization | backend/app/Http/Controllers/PrenatalOutPatientImmunizationController.php:90-114 | the vaccine rows and the immunization record are those of the specification |
| PrenatalOutPatientImmunizationController.Clinic.CompleteAppointment | backend/app/Http/Controllers/PrenatalOutPatientImmunizationController.php:133-140 | the appointments become those with the due one completed, nothing else changes |
| PrenatalOutPatientImmunizationController.Clinic.CreateRows | backend/app/Http/Controllers/PrenatalOutPatientImmunizationController.php:36-50 | the new visit and the new out-patient are appended and nothing else changes |
| PrenatalOutPatientImmunizationController.Clinic.Store | backend/app/Http/Controllers/PrenatalOutPatientImmunizationController.php:22-175 | the new database and the reply are those of StoreOutcome, and a failure leaves the database unchanged |
| PrenatalOutPatientImmunizationController.Clinic.Update | backend/app/Http/Controllers/PrenatalOutPatientImmunizationController.php:177-253 | the new database and the reply are those of UpdateOutcome, and a failure leaves the database unchanged |
| PrenatalOutPatientValueResource.AogParts | backend/app/Http/Resources/PrenatalOutPatientValueResource.php:26-29 | weeks times seven plus days is the elapsed days, with days below seven |
| PrenatalOutPatientValueResource.AogShape | backend/app/Http/Resources/PrenatalOutPatientValueResource.php:30 | both branches render digits, "w/", one digit and "d" |
| PrenatalOutPatientValueResource.IndexOf | backend/app/Http/Resources/PrenatalOutPatientValueResource.php:30 | the index found holds the character and no earlier position does |
| PrenatalOutPatientValueResource.AogRoundTrip | backend/app/Http/Resources/PrenatalOutPatientValueResource.php:26-30 | the rendered age of gestation parses back to the elapsed days, so different day counts never render alike |
| PrenatalOutPatientValueResource.OrBlank | backend/app/Http/Resources/PrenatalOutPatientValueResource.php:33-38 | a null vital becomes "", any other value passes through |
| PrenatalOutPatientValueResource.ActiveTracking | backend/app/Http/Resources/PrenatalOutPatientValueResource.php:20-24 | a tracking is found exactly when it is open and neither miscarried nor discontinued |
| PrenatalOutPatientValueResource.ToArrayFields | backend/app/Http/Resources/PrenatalOutPatientValueResource.php:20-42 | the resource fails exactly when there is no active tracking; otherwise the vitals pass through or become "", gravidity and status are the active tracking's, and aog is AogText of the elapsed days ("{weeks}w/{days}d" with days 0..6), which parses back to them |
| RiskEntries.AgeIsCompletedYears | frontend/src/components/interfaces/form-wizard/NewPatientBasicInfo.jsx:12-22 | the age is the number of completed years: that birthday has come by today and the next one has not |
| RiskEntries.WithoutCodesMembers | frontend/src/components/interfaces/form-wizard/NewPatientBasicInfo.jsx:28-30 | exactly the rows whose code is not removed survive |
| RiskEntries.WithoutCodesConcat | frontend/src/components/interfaces/form-wizard/NewPatientBasicInfo.jsx:28-30 | filtering distributes over concatenation, so surviving rows keep their order |
| RiskEntries.WithoutCodesNoop | frontend/src/components/interfaces/form-wizard/NewPatientBasicInfo.jsx:28-30 | filtering a list that holds none of the codes changes nothing |
| RiskEntries.WithoutCodesTwice | frontend/src/components/interfaces/form-wizard/NewPatientBasicInfo.jsx:28-30 | filtering twice is filtering once, and two filters are one by the union of the codes |
| RiskEntries.CountCodeConcat | frontend/src/components/interfaces/form-wizard/NewPatientBasicInfo.jsx:28-47 | the count of a code over two lists is the sum of the counts |
| RiskEntries.WithoutCodesCount | frontend/src/components/interfaces/form-wizard/NewPatientBasicInfo.jsx:28-30 | no row with a removed code is left, and other codes keep their count |
| RiskEntries.RecomputeAgeCodesCounts | frontend/src/components/interfaces/form-wizard/NewPatientBasicInfo.jsx:24-54 | exactly one auto A under 18, exactly one auto B over 35, never both, and other codes keep their count |
| RiskEntries.RecomputeAgeCodesKeepsOthers | frontend/src/components/interfaces/form-wizard/NewPatientBasicInfo.jsx:24-54 | the rows other than A and B are the original ones in their order |
| RiskEntries.RecomputeAgeCodesIdempotent | frontend/src/components/interfaces/form-wizard/NewPatientBasicInfo.jsx:24-54 | recomputing twice for one age is recomputing once |
| NewPatientBasicInfo.HandleBirthDate | frontend/src/components/interfaces/form-wizard/NewPatientBasicInfo.jsx:10-55 | the handler leaves the form of the birth date for the age on today |
| NewPatientBasicInfo.BirthDateFormRows | frontend/src/components/interfaces/form-wizard/NewPatientBasicInfo.jsx:10-55 | the birth date is stored; one A under 18, one B over 35, neither between; other rows in order with their counts |
| NewPatientBasicInfo.BirthDateFormIdempotent | frontend/src/components/interfaces/form-wizard/NewPatientBasicInfo.jsx:10-55 | choosing the same birth date twice is choosing it once |
| PatientTypeStep.HandleBirthDate | frontend/src/components/interfaces/form-wizard/PatientTypeStep.jsx:54-108 | the handler leaves the form of the birth date, the age on today and the gravidity |
| PatientTypeStep.BirthDateFormRows | frontend/src/components/interfaces/form-wizard/PatientTypeStep.jsx:54-108 | A and B as for a new patient, no hand-entered A or B survives, and a D row is appended exactly when the gravidity is over 3 |
| PatientTypeStep.RepeatedBirthDateDuplicatesD | frontend/src/components/interfaces/form-wizard/PatientTypeStep.jsx:93-100 | running the handler twice with a gravidity over 3 leaves two more D rows |
| PatientTypeStep.HandleExistingPatient | frontend/src/components/interfaces/form-wizard/PatientTypeStep.jsx:110-133 | the copied record, then the birth-date update with the stored gravidity |
| PatientTypeStep.ExistingPatientGravidity | frontend/src/components/interfaces/form-wizard/PatientTypeStep.jsx:120-131 | the form's gravidity is the stored one plus one, yet D is added only when the stored one is over 3 |
| HealthInformationStep.HasCodeCount | frontend/src/components/interfaces/form-wizard/HealthInformationStep.jsx:34 | a row with the code exists exactly when its count is positive |
| HealthInformationStep.HandleChange | frontend/src/components/interfaces/form-wizard/HealthInformationStep.jsx:26-54 | the edited field takes the value and D is toggled |
| HealthInformationStep.ToggleDCases | frontend/src/components/interfaces/form-wizard/HealthInformationStep.jsx:33-46 | over 3 with no D one auto D is appended, over 3 with a D nothing changes, otherwise no D is left |
| HealthInformationStep.ToggleDKeepsOthers | frontend/src/components/interfaces/form-wizard/HealthInformationStep.jsx:33-46 | the rows other than D are the original ones in their order |
| HealthInformationStep.ToggleDIdempotent | frontend/src/components/interfaces/form-wizard/HealthInformationStep.jsx:26-54 | entering the same value twice is entering it once |
| HealthInformationStep.DaysInMonth | frontend/src/components/interfaces/form-wizard/HealthInformationStep.jsx:100-101 | every month the date arithmetic steps through has 28 to 31 days |
| HealthInformationStep.AddNineMonthsShape | frontend/src/components/interfaces/form-wizard/HealthInformationStep.jsx:99-101 | the edc is a calendar date nine months on, same day, or in the month after when the target month is too short |
| HealthInformationStep.EdcTextReadsBack | frontend/src/components/interfaces/form-wizard/HealthInformationStep.jsx:103-106 | the edc text is the year, a dash, two month digits, a dash and two day digits, and reads back as the date |
| HealthInformationStep.HandleLmpChange | frontend/src/components/interfaces/form-wizard/HealthInformationStep.jsx:97-112 | the form keeps the lmp and takes the edc text of nine months later |
| RiskCodes.RemoveRiskSlices | frontend/src/components/interfaces/form-wizard/RiskCodes.jsx:42-47 | removing drops exactly the row at the index and keeps the others in order; an index outside removes nothing |
| RiskCodes.Codes | frontend/src/components/interfaces/form-wizard/RiskCodes.jsx:126-128 | the codes of the rows, one per row in order |
| RiskCodes.SelectedCodesMembers | frontend/src/components/interfaces/form-wizard/RiskCodes.jsx:126-128 | a code is selected elsewhere exactly when a row other than the index holds it |
| RiskCodes.FilterOptionsSpec | frontend/src/components/interfaces/form-wizard/RiskCodes.jsx:125-153 | the options kept are exactly the offered ones, in the original order |
| RiskCodes.RiskOptionsSpec | frontend/src/components/interfaces/form-wizard/RiskCodes.jsx:110-154 | never a code another row holds, no A beside B, no A at a known age of 18 or more, no B at 35 or less, no D under gravidity 4 or for a blank gravidity; D is offered when no other row holds it and the gravidity is unset, not a number, or at least 4 |
| RiskCodes.AllOfferedWhenUnconstrained | frontend/src/components/interfaces/form-wizard/RiskCodes.jsx:125-153 | without a birth date, with no code chosen in another row and a gravidity of 4 or more, every option is offered |
| RiskCodes.AddRisk | frontend/src/components/interfaces/form-wizard/RiskCodes.jsx:32-40 | one blank row is appended after the existing ones |
| RiskCodes.RemoveAddedRisk | frontend/src/components/interfaces/form-wizard/RiskCodes.jsx:32-47 | adding a row and removing it again restores the rows |
| RiskCodes.SetField | frontend/src/components/interfaces/form-wizard/RiskCodes.jsx:25 | the edited field takes the value and the other fields are kept |
| RiskCodes.HandleChange | frontend/src/components/interfaces/form-wizard/RiskCodes.jsx:23-30 | the row at the index has its field written in place, and every other row is unchanged |
| UnifiedForm.FetalHeartToneBands | frontend/src/components/forms/unified_form/UnifiedForm.jsx:622-644 | no tone exactly for blank, Abnormal exactly outside 110..160, Normal otherwise |
| UnifiedForm.StepCount | frontend/src/components/forms/unified_form/UnifiedForm.jsx:569-574 | two steps exactly when immunization is shown, one otherwise |
| UnifiedForm.FormState.constructor | frontend/src/components/forms/unified_form/UnifiedForm.jsx:557-560 | the first step, no immunization, the given form and no initial copy |
| UnifiedForm.FormState.CaptureInitial | frontend/src/components/forms/unified_form/UnifiedForm.jsx:563-567 | the form is copied in edit mode only while no copy exists |
| UnifiedForm.FormState.InputChange | frontend/src/components/forms/unified_form/UnifiedForm.jsx:576-582 | only the named field changes |
| UnifiedForm.FormState.HandlePulseRate | frontend/src/components/forms/unified_form/UnifiedForm.jsx:622-644 | pr takes the value and fht its tone |
| UnifiedForm.FormState.HandleNext | frontend/src/components/forms/unified_form/UnifiedForm.jsx:646-650 | one step on unless on the last step, and the cursor stays on a shown step |
| UnifiedForm.FormState.HandlePrevious | frontend/src/components/forms/unified_form/UnifiedForm.jsx:652-656 | one step back unless on the first step |
| UnifiedForm.FormState.HandleSubmit | frontend/src/components/forms/unified_form/UnifiedForm.jsx:658-661 | back to the first step |
| UnifiedForm.FormState.HandleChange | frontend/src/components/forms/unified_form/UnifiedForm.jsx:593-620 | a cleared selection hides immunization and leaves step 1; a fetched record sets the tracking id and aog and shows immunization exactly in the third trimester |
| AppointmentReports.ContainsIff | frontend/src/pages/reports/AppointmentReports.jsx:51 | `includes` holds exactly when the pattern occurs at some position |
| AppointmentReports.KeepKeySpec | frontend/src/pages/reports/AppointmentReports.jsx:49-54 | a key is kept exactly when it is id, or "_id" is nowhere in its lower-case form and it is neither start_time nor end_time |
| AppointmentReports.ForeignKeysDropped | frontend/src/pages/reports/AppointmentReports.jsx:49-54 | a key ending in "_id" in any case is dropped |
| AppointmentReports.FilteredRowMembers | frontend/src/pages/reports/AppointmentReports.jsx:44-71 | the filtered row holds exactly the kept keys, each with its shaped value |
| AppointmentReports.FilteredRowCells | frontend/src/pages/reports/AppointmentReports.jsx:55-66 | no cell is blank: null, undefined and '' become '-', other non-timestamp values pass through |
| AppointmentReports.FilteredRowLength | frontend/src/pages/reports/AppointmentReports.jsx:44-71 | filtering never adds a column |
| AppointmentReports.FilterRow | frontend/src/pages/reports/AppointmentReports.jsx:45-70 | the loop over the keys builds the filtered row |
| AppointmentReports.FilterColumns | frontend/src/pages/reports/AppointmentReports.jsx:44-71 | every row filtered, in order |
| AppointmentReports.HeaderTextSpec | frontend/src/pages/reports/AppointmentReports.jsx:85-88 | a header has no underscore and no lower-case letter, keeps every other character in place, and lower-cases back to the key with spaces |
| AppointmentReports.LinesRoundTrip | frontend/src/pages/reports/AppointmentReports.jsx:131-136 | joining the split lines gives the text back |
| AppointmentReports.LinesHaveNoBreak | frontend/src/pages/reports/AppointmentReports.jsx:131-136 | no line holds a break |
| AppointmentReports.LinesSingle | frontend/src/pages/reports/AppointmentReports.jsx:137-139 | text without a break is a single line |
| AppointmentReports.MeasureSpec | frontend/src/pages/reports/AppointmentReports.jsx:127-140 | the single-line branch is the longest-line rule on one line, and no cell measures more than its text |
| AppointmentReports.MaxMeasureBound | frontend/src/pages/reports/AppointmentReports.jsx:126-141 | no cell measures more than the column's longest measure |
| AppointmentReports.MaxMeasureAttained | frontend/src/pages/reports/AppointmentReports.jsx:126-141 | the longest measure is zero or that of some cell |
| AppointmentReports.ColumnWidthSpec | frontend/src/pages/reports/AppointmentReports.jsx:121-144 | every cell fits with two to spare unless capped at 80, and the width is 15, 80 or two more than some cell |
| AppointmentReports.ColumnWidth | frontend/src/pages/reports/AppointmentReports.jsx:122-143 | the auto-fit loop computes the column's width |
| AppointmentReports.SheetShape | frontend/src/pages/reports/AppointmentReports.jsx:74-145 | no data gives the one message row; otherwise the header row of the first record, a row per record and one width in 15..80 per column |
| AppointmentReports.ColumnCountSpec | frontend/src/pages/reports/AppointmentReports.jsx:121 | every row fits within the column count |
| AppointmentReports.AddWorksheet | frontend/src/pages/reports/AppointmentReports.jsx:74-145 | the sheet built is the one the specification describes |
| AppointmentReports.DataRows | frontend/src/pages/reports/AppointmentReports.jsx:84-118 | the header row of the first filtered record, then one row of values per record |
| AppointmentReports.ColumnWidths | frontend/src/pages/reports/AppointmentReports.jsx:121-144 | one width per column, as far as the widest row reaches |
| AppointmentReports.FilterSpec | frontend/src/pages/reports/AppointmentReports.jsx:150-250 | a filtered list holds exactly the matching appointments, and no more than the list |
| AppointmentReports.StatusWithinStage | frontend/src/pages/reports/AppointmentReports.jsx:155-250 | every appointment on the Completed Status sheet is also on the Completed sheet |
| AppointmentReports.SumCountsBound | frontend/src/pages/reports/AppointmentReports.jsx:150-203 | when no appointment matches two criteria, the selected lists together hold at most the total |
| AppointmentReports.StatusCountsBound | frontend/src/pages/reports/AppointmentReports.jsx:150-173 | scheduled, completed and missed together are at most the total |
| AppointmentReports.PriorityCountsBound | frontend/src/pages/reports/AppointmentReports.jsx:175-203 | the four priority sheets together hold at most the total |
| AppointmentReports.FirstKeysSpec | frontend/src/pages/reports/AppointmentReports.jsx:269-289 | every month key of a dated appointment is created once |
| AppointmentReports.MonthGroupSpec | frontend/src/pages/reports/AppointmentReports.jsx:271-289 | a dated appointment is in exactly the group of its key, an undated one in none, and a group is non-empty exactly when its key occurs |
| AppointmentReports.AddToGroup | frontend/src/pages/reports/AppointmentReports.jsx:272-288 | one step of the grouping loop |
| AppointmentReports.GroupByMonth | frontend/src/pages/reports/AppointmentReports.jsx:269-289 | the groups and their creation order hold the appointments by month |
| AppointmentReports.InsertSpec | frontend/src/pages/reports/AppointmentReports.jsx:292 | inserting a new key into a sorted list keeps it sorted and adds exactly that key |
| AppointmentReports.SortStringsSpec | frontend/src/pages/reports/AppointmentReports.jsx:292 | sorting distinct keys yields them all, each once, in ascending order |
| AppointmentReports.YearMonthTextOrder | frontend/src/pages/reports/AppointmentReports.jsx:274-276 | the order of two "YYYY-MM" strings is year order, then month order |
| AppointmentReports.MonthKeyOrder | frontend/src/pages/reports/AppointmentReports.jsx:274-292 | for four-digit years keys sort chronologically, and equal keys mean the same month |
| AppointmentReports.InvalidKeyLast | frontend/src/pages/reports/AppointmentReports.jsx:273-292 | an unparsable date's key sorts after the key of every date with a non-negative year |
| AppointmentReports.GroupSizesTotal | frontend/src/pages/reports/AppointmentReports.jsx:269-289 | over distinct keys covering every dated appointment the group sizes add up to the dated count |
| AppointmentReports.MonthTotals | frontend/src/pages/reports/AppointmentReports.jsx:292-297 | the months are ascending, each once, one per key, and their counts add up to the dated count |
| AppointmentReports.MonthRowsSum | frontend/src/pages/reports/AppointmentReports.jsx:319-322 | the counts of the summary's month rows add up to the sizes of the month groups |
| AppointmentReports.CountRowsConsistent | frontend/src/pages/reports/AppointmentReports.jsx:303-317 | the status counts and the priority counts add up to at most the total, and Completed Status is at most Completed |
| AppointmentReports.SummaryMonths | frontend/src/pages/reports/AppointmentReports.jsx:303-325 | the count rows, then the month rows between their heading and the blank line, adding up to the dated count |
| AppointmentReports.SheetsOfSpec | frontend/src/pages/reports/AppointmentReports.jsx:294-297 | one sheet per element, in order |
| AppointmentReports.AddFixedSheets | frontend/src/pages/reports/AppointmentReports.jsx:148-250 | the fixed sheets, each from its filtered list, in workbook order |
| AppointmentReports.AddMonthSheets | frontend/src/pages/reports/AppointmentReports.jsx:294-297 | one sheet per sorted month, named by its label |
| AppointmentReports.BuildReport | frontend/src/pages/reports/AppointmentReports.jsx:39-356 | the fixed sheets, the month sheets in sorted key order, then the summary |
| AppointmentReports.MonthSheetsShape | frontend/src/pages/reports/AppointmentReports.jsx:294-297 | one sheet per month with appointments, never the empty message: a header row and one row per appointment of the month |
| AppointmentReports.FixedSheetsWidths | frontend/src/pages/reports/AppointmentReports.jsx:121-144 | every column width of a fixed sheet is within 15..80 |

## Left out

- Database access, transactions, authentication and activity logging are not
  modelled. A database failure inside a transaction is modelled as the
  controller leaving the state unchanged.
- Clocks are inputs: today's date, the weeks since lmp, the elapsed days and
  the report's generation time are parameters.
- Field-format rules (date, numeric, max length) of the immunization request
  are kept as rule text. They are not checked; only the key sets are reasoned
  about.
- ValidateDelivery: Laravel's `date` rule is an input (`dateDeliveryParses`),
  since PHP's date parser is not part of this model. The delivery fields are
  stored as received; a request-trimming middleware, if the application runs
  one, is not modelled.
- NewPatientBasicInfo.HandleBirthDate and HealthInformationStep.HandleLmpChange:
  a cleared date input is not modelled. In the program a cleared birth date
  gives a NaN age (A and B removed, none added) and a cleared lmp gives the edc
  text "NaN-NaN-NaN".
- Eloquent's fillable filtering and casts are not modelled; a model row takes
  the validated fields as given.
- Ties in `latest()` (rows with the same timestamp) are resolved by position:
  the last row of the tracking counts as its latest.
- Workbook styling (fonts, fills, borders), the file download and its name, and
  console output are left out.
- Lower-casing and upper-casing cover ASCII letters only.
- Strings are sequences of Unicode scalar values. JavaScript's `length` and
  default `sort()` count and compare UTF-16 code units, so a character outside
  the Basic Multilingual Plane measures one less in the report's column widths,
  and such characters may sort differently.
- Weights, temperatures and other fractional fields are modelled as integers or
  text.
- PHP's `(int)` of a string with a numeric prefix such as "12abc" is not
  modelled. A stored counter is either a number or absent, and absent counts
  as 0.
- PHP array key order is not modelled; the resource's fields form a record.
- An existing patient with no stored birth date is not modelled; the birth date
  is a date.
- What the unified form's `onSubmit` callback does is outside the model; only
  the step reset is modelled.
- The patient selector of the unified form reads `currentStep` from the render
  it was created in. The model uses the current step.
- The asynchronous fetches of the wizard and the form are replaced by their
  result, passed in as a parameter (None for nothing or a failure).
- The pregnancy-tracking request's validation rules are not part of this model;
  `store` takes the validated fields. `update` writes only lmp, parity and
  abortion; the other validated fields it writes are not modelled.
- For the report, the fetch, date parsing and time zones are left out. The local
  date text of a timestamp is a parameter, and an appointment date is a local
  year and month or unparsable.
- A report row's null status or priority is modelled as a string. The program
  would throw on `toLowerCase` there.
- A report sheet's headers come from the first record only, as in the program;
  the model does not track columns that later records add.
- FileNumberDecodes: states how the file number is built and that it is all
  digits. That its three parts read back is stated once, by
  Common.DailySequenceNumberDecode.
- AddFixedSheets: the twelve fixed sheets are built by one loop over a list of
  sheet descriptions rather than twelve separate calls. Each description's list
  is the filter it names, applied to all appointments.
