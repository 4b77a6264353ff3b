/**
 * The add-medication form (`AddMedModal`): schedule toggling, the checks made
 * before the create request, the request body, and the append of the created
 * record to the store. Creation always goes to the drug endpoint; the chosen
 * medication type only tags the local record.
 */
module AddMedModal {
  import opened Wrappers
  import opened Seqs
  import opened JsString
  import opened HealthDataStore
  import opened MedDetailModal

  /** The six checkboxes of the form: the standard times, then "기타". */
  const ScheduleOptions: seq<string> := StandardOptions + [OtherOption]

  /** The two screens of the dialog: choosing prescription or supplement, then the form. */
  datatype AddStep = SelectType | FillForm

  datatype AddOutcome = BlankName | CustomTimeMissing | Created(payload: DrugPayload) | CreateFailed(payload: DrugPayload)

  /** The body of the `createDrug` request: the name as typed, the options without "기타", the trimmed custom text. */
  function CreatePayload(name: string, dosageForm: string, dose: string, unit: string, schedule: seq<string>,
                         customInput: string, startDate: string, endDate: string): (p: DrugPayload)
    ensures p.medName == name
    ensures OtherOption !in p.schedule
    ensures forall x :: x != OtherOption ==> (x in p.schedule <==> x in schedule)
    ensures IsSubsequence(p.schedule, schedule) && |p.schedule| == Count(schedule, NotOther)
    ensures OtherOption in schedule ==> p.customSchedule == Trim(customInput)
    ensures OtherOption !in schedule ==> p.customSchedule == ""
  {
    DrugPayload(name, dosageForm, dose, unit, SelectedOptions(schedule), CustomText(schedule, customInput), startDate, endDate)
  }

  class AddMedForm {
    /** The screen the dialog opened on; the back button exists only when it is not the form. */
    const startStep: AddStep
    var step: AddStep
    var medType: MedKind
    var name: string
    var dosageForm: string
    var dose: string
    var unit: string
    var schedule: seq<string>
    var customSchedule: string
    var startDate: string
    var endDate: string

    /** An empty form on the given type, showing the given screen; both dates start at today. */
    constructor(initialType: MedKind, start: AddStep, today: string)
      ensures startStep == start && step == start
      ensures medType == initialType && name == "" && dose == "" && schedule == [] && customSchedule == ""
      ensures dosageForm == "정제" && unit == "mg" && startDate == today && endDate == today
    {
      startStep, step := start, start;
      medType := initialType;
      name, dosageForm, dose, unit := "", "정제", "", "mg";
      schedule, customSchedule := [], "";
      startDate, endDate := today, today;
    }

    /** A type card on the first screen: the chosen type tags the record, and the form opens unchanged. */
    method ChooseType(kind: MedKind)
      modifies this
      ensures step == FillForm && medType == kind
      ensures name == old(name) && schedule == old(schedule) && customSchedule == old(customSchedule)
      ensures dosageForm == old(dosageForm) && dose == old(dose) && unit == old(unit)
      ensures startDate == old(startDate) && endDate == old(endDate)
    {
      medType := kind;
      step := FillForm;
    }

    /** The "이전" button: back to the type cards, keeping what was typed; absent when the dialog opened on the form. */
    method Back()
      modifies this
      ensures step == (if startStep != FillForm then SelectType else old(step))
      ensures medType == old(medType) && name == old(name) && schedule == old(schedule) && customSchedule == old(customSchedule)
      ensures dosageForm == old(dosageForm) && dose == old(dose) && unit == old(unit)
      ensures startDate == old(startDate) && endDate == old(endDate)
    {
      if startStep != FillForm {
        step := SelectType;
      }
    }

    /** `handleScheduleToggle`: flips the option and leaves the other entries alone. */
    method ToggleSchedule(option: string)
      modifies this
      ensures schedule == ToggleOption(old(schedule), option)
      ensures step == old(step) && medType == old(medType) && name == old(name) && customSchedule == old(customSchedule)
      ensures dosageForm == old(dosageForm) && dose == old(dose) && unit == old(unit)
      ensures startDate == old(startDate) && endDate == old(endDate)
    {
      if option in schedule {
        schedule := Seqs.Filter(schedule, (x: string) => x != option);
      } else {
        schedule := schedule + [option];
      }
    }

    /**
     * `handleSubmit`: a blank name, then "기타" with a blank custom text, stop
     * before any request; otherwise one `createDrug` request, and on success
     * the mapped reply is appended to the store's medications.
     */
    method HandleSubmit(store: HealthData, reply: ApiReply<DrugItem>) returns (outcome: AddOutcome, closed: bool)
      modifies store
      ensures IsBlank(name) ==> outcome == BlankName
      ensures !IsBlank(name) && MissingCustom(schedule, customSchedule) ==> outcome == CustomTimeMissing
      ensures !IsBlank(name) && !MissingCustom(schedule, customSchedule) ==>
        (outcome.Created? || outcome.CreateFailed?) &&
        outcome.payload == CreatePayload(name, dosageForm, dose, unit, schedule, customSchedule, startDate, endDate)
      ensures outcome.Created? <==> !IsBlank(name) && !MissingCustom(schedule, customSchedule) && reply.Ok?
      ensures outcome.Created? ==> store.medications == old(store.medications) + [MapDrugToMedication(reply.body, medType)]
      ensures !outcome.Created? ==> store.medications == old(store.medications)
      ensures closed <==> outcome.Created?
      ensures store.diseases == old(store.diseases) && store.allergies == old(store.allergies)
      ensures store.basicInfo == old(store.basicInfo) && store.currentDate == old(store.currentDate)
    {
      closed := false;
      if IsBlank(name) {
        return BlankName, false;
      }
      if MissingCustom(schedule, customSchedule) {
        return CustomTimeMissing, false;
      }
      var payload := CreatePayload(name, dosageForm, dose, unit, schedule, customSchedule, startDate, endDate);
      if reply.Failed? {
        return CreateFailed(payload), false;
      }
      var newMed := MapDrugToMedication(reply.body, medType);
      store.SetMedications(store.medications + [newMed]);
      outcome, closed := Created(payload), true;
    }
  }
}
