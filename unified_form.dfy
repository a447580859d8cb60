/** UnifiedForm: the prenatal-visit form's state — the current step, whether the
    immunization step is shown, the form fields and the snapshot taken for editing
    — and the fetal heart tone derived from the pulse rate. */
module UnifiedForm {
  import opened Common

  /** The fetal heart tone for the pulse-rate field. `value` is the field's text and
      `pulse` the number JavaScript reads from it (None when it reads NaN): blank
      gives no tone, a pulse outside 110..160 is Abnormal, anything else Normal. */
  function FetalHeartTone(value: string, pulse: Option<int>): string
  {
    if value == "" then ""
    else if pulse.Some? && (pulse.value < 110 || pulse.value > 160) then "Abnormal"
    else "Normal"
  }

  /** Blank is the only input without a tone; the tone is Abnormal exactly for a
      pulse outside the closed range 110..160, so both ends of the range are
      Normal; text that reads as no number at all counts as Normal. */
  lemma FetalHeartToneBands(value: string, pulse: Option<int>)
    ensures FetalHeartTone(value, pulse) == "" <==> value == ""
    ensures FetalHeartTone(value, pulse) == "Abnormal" <==>
      value != "" && pulse.Some? && !(110 <= pulse.value <= 160)
    ensures FetalHeartTone(value, pulse) == "Normal" <==>
      value != "" && (pulse.None? || 110 <= pulse.value <= 160)
    ensures FetalHeartTone(value, pulse) in {"", "Abnormal", "Normal"}
  {
  }

  /** The steps shown: the prenatal visit, then immunization when it is shown. */
  function StepCount(showImmunization: bool): (n: nat)
    ensures n == 2 <==> showImmunization
    ensures n == 1 <==> !showImmunization
  {
    if showImmunization then 2 else 1
  }

  /** The out-patient record fetched for a selected patient. */
  datatype FetchedOutPatient = FetchedOutPatient(aog: string, pregnancyStatus: string)

  class FormState {
    var currentStep: int
    var showImmunization: bool
    var formData: map<string, string>
    var initialFormData: map<string, string>

    /** The step cursor points at a shown step. */
    predicate Valid()
      reads this
    {
      0 <= currentStep < StepCount(showImmunization)
    }

    constructor (formData: map<string, string>)
      ensures Valid()
      ensures currentStep == 0 && !showImmunization
      ensures this.formData == formData && initialFormData == map[]
    {
      currentStep := 0;
      showImmunization := false;
      this.formData := formData;
      initialFormData := map[];
    }

    /** The effect on entering edit mode: the form is copied once, while no copy exists. */
    method CaptureInitial(isEdit: bool)
      modifies this
      ensures initialFormData == if isEdit && |old(initialFormData)| == 0 then formData else old(initialFormData)
      ensures currentStep == old(currentStep) && showImmunization == old(showImmunization)
      ensures formData == old(formData)
    {
      if isEdit && |initialFormData| == 0 {
        initialFormData := formData;
      }
    }

    /** inputChange: sets only the named field. */
    method InputChange(name: string, value: string)
      modifies this
      ensures formData == old(formData)[name := value]
      ensures forall k :: k in old(formData) && k != name ==> k in formData && formData[k] == old(formData)[k]
      ensures currentStep == old(currentStep) && showImmunization == old(showImmunization)
      ensures initialFormData == old(initialFormData)
    {
      formData := formData[name := value];
    }

    /** The pulse-rate handler: stores pr and the tone it gives. */
    method HandlePulseRate(value: string, pulse: Option<int>)
      modifies this
      ensures formData == old(formData)["pr" := value]["fht" := FetalHeartTone(value, pulse)]
      ensures currentStep == old(currentStep) && showImmunization == old(showImmunization)
      ensures initialFormData == old(initialFormData)
    {
      if value == "" {
        formData := formData["pr" := value]["fht" := ""];
      } else if pulse.Some? && (pulse.value < 110 || pulse.value > 160) {
        formData := formData["pr" := value]["fht" := "Abnormal"];
      } else {
        formData := formData["pr" := value]["fht" := "Normal"];
      }
    }

    /** handleNext: one step on, unless on the last step. */
    method HandleNext()
      requires Valid()
      modifies this
      ensures Valid()
      ensures currentStep == if old(currentStep) < StepCount(showImmunization) - 1 then old(currentStep) + 1 else old(currentStep)
      ensures showImmunization == old(showImmunization) && formData == old(formData)
      ensures initialFormData == old(initialFormData)
    {
      if currentStep < StepCount(showImmunization) - 1 {
        currentStep := currentStep + 1;
      }
    }

    /** handlePrevious: one step back, unless on the first step. */
    method HandlePrevious()
      requires Valid()
      modifies this
      ensures Valid()
      ensures currentStep == if old(currentStep) > 0 then old(currentStep) - 1 else old(currentStep)
      ensures showImmunization == old(showImmunization) && formData == old(formData)
      ensures initialFormData == old(initialFormData)
    {
      if currentStep > 0 {
        currentStep := currentStep - 1;
      }
    }

    /** handleSubmit: back to the first step. */
    method HandleSubmit()
      modifies this
      ensures Valid() && currentStep == 0
      ensures showImmunization == old(showImmunization) && formData == old(formData)
      ensures initialFormData == old(initialFormData)
    {
      currentStep := 0;
    }

    /** handleChange for the patient selector. `selected` is None when the selection
        is cleared; `fetched` is the out-patient record the lookup returned, None
        when it returned nothing or failed. A selected patient records the tracking
        id and aog and shows immunization exactly in the third trimester; clearing
        hides it; in both cases a cursor on the immunization step moves back to 0. */
    method HandleChange(selected: Option<string>, fetched: Option<FetchedOutPatient>)
      requires Valid()
      modifies this
      ensures Valid()
      ensures selected.None? ==>
        && !showImmunization && currentStep == 0
        && formData == old(formData)
      ensures selected.Some? && fetched.None? ==>
        && showImmunization == old(showImmunization) && currentStep == old(currentStep)
        && formData == old(formData)
      ensures selected.Some? && fetched.Some? ==>
        && formData == old(formData)["pregnancy_tracking_id" := selected.value]["aog" := fetched.value.aog]
        && (showImmunization <==> fetched.value.pregnancyStatus == "third_trimester")
        && currentStep == (if showImmunization then old(currentStep) else 0)
      ensures initialFormData == old(initialFormData)
    {
      if selected.Some? {
        if fetched.Some? {
          formData := formData["pregnancy_tracking_id" := selected.value]["aog" := fetched.value.aog];
          if fetched.value.pregnancyStatus == "third_trimester" {
            showImmunization := true;
          } else {
            showImmunization := false;
            if currentStep == 1 {
              currentStep := 0;
            }
          }
        }
      } else {
        showImmunization := false;
        if currentStep == 1 {
          currentStep := 0;
        }
      }
    }
  }
}
