/**
 * The medication detail modal (`MedDetailModal`): how a stored schedule text
 * is split back into the standard intake times plus a free-text "기타"
 * entry, how backend drug and prescription records become store entries,
 * and the save and delete handlers, which pick the drug or the prescription
 * endpoint by the medication's type.
 */
module MedDetailModal {
  import opened Wrappers
  import opened Seqs
  import opened JsString
  import opened HealthDataStore

  /** The five fixed intake times. */
  const StandardOptions: seq<string> := ["아침", "점심", "저녁", "취침전", "증상시"]

  /** The option that stands for a free-text intake time. */
  const OtherOption: string := "기타"

  predicate IsStandard(p: string)
  {
    p in StandardOptions
  }

  predicate IsCustom(p: string)
  {
    p !in StandardOptions
  }

  /** A backend supplement record (`DrugItem`). */
  datatype DrugItem = DrugItem(drugId: int, medName: string, dosageForm: string, dose: string, unit: string,
                               schedule: seq<string>, customSchedule: string, startDate: string, endDate: string)

  /** A backend prescription record (`PrescriptionItem`); its custom schedule may be null. */
  datatype PrescriptionItem = PrescriptionItem(prescriptionId: int, medName: string, dosageForm: string, dose: string,
                                               unit: string, schedule: seq<string>, customSchedule: Option<string>,
                                               startDate: string, endDate: string, visitId: int)

  /** The checked options and the custom text shown by the edit form. */
  datatype ParsedSchedule = ParsedSchedule(list: seq<string>, custom: string)

  /** The schedule text a mapper stores: the options, then the custom text when it is non-empty, joined with `", "`. */
  function ScheduleText(schedule: seq<string>, custom: string): string
  {
    Join(schedule + (if custom != "" then [custom] else []), ", ")
  }

  /**
   * `parseSchedule`: the trimmed comma-separated pieces that are standard
   * options, in order, then "기타" when any other piece exists; the other
   * pieces joined with `", "` become the custom text.
   */
  function ParseSchedule(text: string): (r: ParsedSchedule)
    ensures text == "" ==> r == ParsedSchedule([], "")
    ensures forall i :: 0 <= i < |r.list| ==> IsStandard(r.list[i]) || r.list[i] == OtherOption
    ensures r.custom != "" ==> OtherOption in r.list
    ensures text != "" ==> var parts := TrimAll(Split(text, ','));
      Count(parts, IsStandard) <= |r.list|
      && IsSelection(r.list[..Count(parts, IsStandard)], parts, IsStandard)
      && r.list[Count(parts, IsStandard)..] == (if Count(parts, IsCustom) > 0 then [OtherOption] else [])
      && exists custom :: IsSelection(custom, parts, IsCustom) && r.custom == Join(custom, ", ")
  {
    if text == "" then ParsedSchedule([], "") else ParseParts(TrimAll(Split(text, ',')))
  }

  /**
   * The form state for the trimmed pieces of a non-empty schedule text: the
   * standard pieces in order, then "기타" when some piece is not standard;
   * those other pieces, in order, joined with `", "` are the custom text.
   */
  function ParseParts(parts: seq<string>): (r: ParsedSchedule)
    ensures forall i :: 0 <= i < |r.list| ==> IsStandard(r.list[i]) || r.list[i] == OtherOption
    ensures r.custom != "" ==> OtherOption in r.list
    ensures Count(parts, IsStandard) <= |r.list|
    ensures IsSelection(r.list[..Count(parts, IsStandard)], parts, IsStandard)
    ensures r.list[Count(parts, IsStandard)..] == (if Count(parts, IsCustom) > 0 then [OtherOption] else [])
    ensures exists custom :: IsSelection(custom, parts, IsCustom) && r.custom == Join(custom, ", ")
  {
    var standard := Filter(parts, IsStandard);
    var custom := Filter(parts, IsCustom);
    FilterIsSelection(parts, IsStandard);
    FilterIsSelection(parts, IsCustom);
    var list := standard + (if custom != [] then [OtherOption] else []);
    assert list[..|standard|] == standard && list[|standard|..] == (if custom != [] then [OtherOption] else []);
    ParsedSchedule(list, Join(custom, ", "))
  }

  /** "기타" is checked exactly when some trimmed piece of a non-empty text is not a standard option. */
  lemma ParseScheduleOther(text: string)
    ensures OtherOption in ParseSchedule(text).list <==>
      text != "" && exists p :: p in TrimAll(Split(text, ',')) && IsCustom(p)
  {
    if text != "" {
      ParsePartsOther(TrimAll(Split(text, ',')));
    }
  }

  lemma OtherIsCustom()
    ensures IsCustom(OtherOption)
  {
  }

  lemma ParsePartsOther(parts: seq<string>)
    ensures OtherOption in ParseParts(parts).list <==> exists p :: p in parts && IsCustom(p)
  {
    var standard := Filter(parts, IsStandard);
    var custom := Filter(parts, IsCustom);
    OtherIsCustom();
    assert OtherOption !in standard by {
      forall i | 0 <= i < |standard| ensures standard[i] != OtherOption {
        assert IsStandard(standard[i]);
      }
    }
    if custom != [] {
      assert custom[0] in parts;
    }
    if p :| p in parts && IsCustom(p) {
      var i :| 0 <= i < |parts| && parts[i] == p;
      assert parts[i] in custom;
    }
  }

  /** A standard option is trimmed and has no comma. */
  lemma StandardOptionShape(i: int)
    requires 0 <= i < |StandardOptions|
    ensures IsTrimmed(StandardOptions[i]) && ',' !in StandardOptions[i] && StandardOptions[i] != ""
  {
  }

  lemma JoinStartsWithFirst(parts: seq<string>, sep: string)
    requires |parts| >= 1
    ensures |Join(parts, sep)| >= |parts[0]|
  {
  }

  /**
   * What a mapper stores parses back into what was sent: standard options,
   * plus "기타" and the custom text when there is one. The custom text must
   * be trimmed, free of commas and not itself a standard option.
   */
  lemma ParseScheduleText(schedule: seq<string>, custom: string)
    requires forall i :: 0 <= i < |schedule| ==> IsStandard(schedule[i])
    requires custom != "" ==> IsTrimmed(custom) && ',' !in custom && IsCustom(custom)
    ensures ParseSchedule(ScheduleText(schedule, custom)) ==
      ParsedSchedule(schedule + (if custom != "" then [OtherOption] else []), custom)
  {
    if schedule + (if custom != "" then [custom] else []) != [] {
      ScheduleTextPieces(schedule, custom);
      ParsePartsOfSchedule(schedule, custom);
    }
  }

  /** The trimmed comma-separated pieces of a non-empty schedule text are exactly the options and the custom text. */
  lemma ScheduleTextPieces(schedule: seq<string>, custom: string)
    requires forall i :: 0 <= i < |schedule| ==> IsStandard(schedule[i])
    requires custom != "" ==> IsTrimmed(custom) && ',' !in custom && IsCustom(custom)
    requires schedule + (if custom != "" then [custom] else []) != []
    ensures ScheduleText(schedule, custom) != ""
    ensures TrimAll(Split(ScheduleText(schedule, custom), ',')) == schedule + (if custom != "" then [custom] else [])
  {
    var parts := schedule + (if custom != "" then [custom] else []);
    forall i | 0 <= i < |parts| ensures IsTrimmed(parts[i]) && ',' !in parts[i] && parts[i] != "" {
      if i < |schedule| {
        var k :| 0 <= k < |StandardOptions| && StandardOptions[k] == schedule[i];
        StandardOptionShape(k);
      }
    }
    JoinStartsWithFirst(parts, ", ");
    SplitCommaSpaceJoin(parts);
    assert TrimAll(parts) == parts;
  }

  /** Sorting the pieces of a sent schedule puts the options first and the custom text behind "기타". */
  lemma ParsePartsOfSchedule(schedule: seq<string>, custom: string)
    requires forall i :: 0 <= i < |schedule| ==> IsStandard(schedule[i])
    requires custom != "" ==> IsCustom(custom)
    ensures ParseParts(schedule + (if custom != "" then [custom] else [])) ==
      ParsedSchedule(schedule + (if custom != "" then [OtherOption] else []), custom)
  {
    FilterKeepsAll(schedule, IsStandard);
    FilterDropsAll(schedule, IsCustom);
    if custom == "" {
      assert schedule + [] == schedule;
    } else {
      FilterConcat(schedule, [custom], IsStandard);
      FilterConcat(schedule, [custom], IsCustom);
      assert [custom][1..] == [];
      assert Filter([custom], IsStandard) == [];
      assert Filter([custom], IsCustom) == [custom];
    }
  }

  /** `mapDrugToMedication(item, type)`: the backend id as text, the given type, the schedule text. */
  function MapDrugToMedication(item: DrugItem, kind: MedKind): (m: Medication)
    ensures m.id == DecimalString(item.drugId) && m.kind == kind
    ensures m.schedule == ScheduleText(item.schedule, item.customSchedule)
  {
    Medication(DecimalString(item.drugId), item.medName, kind, item.dosageForm, item.dose, item.unit,
               ScheduleText(item.schedule, item.customSchedule), item.startDate, item.endDate)
  }

  /** `mapPrescriptionToMedication(item)`: always of type prescription; a null custom schedule adds nothing. */
  function MapPrescriptionToMedication(item: PrescriptionItem): (m: Medication)
    ensures m.id == DecimalString(item.prescriptionId) && m.kind == Prescription
    ensures m.schedule == ScheduleText(item.schedule, item.customSchedule.GetOr(""))
  {
    Medication(DecimalString(item.prescriptionId), item.medName, Prescription, item.dosageForm, item.dose, item.unit,
               ScheduleText(item.schedule, item.customSchedule.GetOr("")), item.startDate, item.endDate)
  }

  /** Opening the edit form on a mapped drug shows the options and custom text the backend holds. */
  lemma DrugScheduleRoundTrip(item: DrugItem, kind: MedKind)
    requires forall i :: 0 <= i < |item.schedule| ==> IsStandard(item.schedule[i])
    requires item.customSchedule != "" ==> IsTrimmed(item.customSchedule) && ',' !in item.customSchedule && IsCustom(item.customSchedule)
    ensures ParseSchedule(MapDrugToMedication(item, kind).schedule) ==
      ParsedSchedule(item.schedule + (if item.customSchedule != "" then [OtherOption] else []), item.customSchedule)
  {
    ParseScheduleText(item.schedule, item.customSchedule);
  }

  lemma PrescriptionScheduleRoundTrip(item: PrescriptionItem)
    requires forall i :: 0 <= i < |item.schedule| ==> IsStandard(item.schedule[i])
    requires item.customSchedule.Some? && item.customSchedule.value != "" ==>
      IsTrimmed(item.customSchedule.value) && ',' !in item.customSchedule.value && IsCustom(item.customSchedule.value)
    ensures var c := item.customSchedule.GetOr("");
      ParseSchedule(MapPrescriptionToMedication(item).schedule) ==
      ParsedSchedule(item.schedule + (if c != "" then [OtherOption] else []), c)
  {
    ParseScheduleText(item.schedule, item.customSchedule.GetOr(""));
  }

  /** `handleScheduleToggle(option)`: removes every copy of a checked option, or appends an unchecked one. */
  function ToggleOption(list: seq<string>, option: string): (r: seq<string>)
    ensures option in r <==> option !in list
    ensures forall x :: x != option ==> (x in r <==> x in list)
    ensures option !in list ==> r == list + [option]
    ensures Filter(r, (x: string) => x != option) == Filter(list, (x: string) => x != option)
  {
    if option in list then
      var r := Filter(list, (x: string) => x != option);
      FilterIdempotent(list, (x: string) => x != option);
      r
    else
      FilterConcat(list, [option], (x: string) => x != option);
      assert [option][1..] == [];
      list + [option]
  }

  /** Toggling an unchecked option twice restores the list; toggling a checked one twice keeps the same options (it moves to the end). */
  lemma ToggleTwice(list: seq<string>, option: string)
    ensures option !in list ==> ToggleOption(ToggleOption(list, option), option) == list
    ensures forall x :: x in ToggleOption(ToggleOption(list, option), option) <==> x in list
  {
    if option !in list {
      var once := list + [option];
      FilterDropsAppended(list, option, (x: string) => x != option);
    }
  }

  predicate NotOther(s: string)
  {
    s != OtherOption
  }

  /** The options sent to the backend: everything checked except "기타", in the order checked, each copy kept. */
  function SelectedOptions(list: seq<string>): (r: seq<string>)
    ensures OtherOption !in r
    ensures forall x :: x != OtherOption ==> (x in r <==> x in list)
    ensures IsSubsequence(r, list) && |r| == Count(list, NotOther)
  {
    FilterInOrder(list, NotOther);
    Filter(list, NotOther)
  }

  /** The custom text sent to the backend: the trimmed input when "기타" is checked, otherwise empty. */
  function CustomText(list: seq<string>, input: string): (r: string)
    ensures OtherOption !in list ==> r == ""
    ensures OtherOption in list ==> r == Trim(input)
    ensures IsTrimmed(r)
  {
    if OtherOption in list then Trim(input) else ""
  }

  /** The rule both the add and the edit form enforce: "기타" checked with a blank custom text. */
  predicate MissingCustom(list: seq<string>, input: string)
  {
    OtherOption in list && CustomText(list, input) == ""
  }

  lemma MissingCustomMeansBlank(list: seq<string>, input: string)
    ensures MissingCustom(list, input) <==> OtherOption in list && AllWhitespace(input)
  {
  }

  /** The fields of the edit form other than the schedule. */
  datatype EditForm = EditForm(name: string, dosageForm: string, dose: string, unit: string, startDate: string, endDate: string)

  /** The body of a drug create or update request. */
  datatype DrugPayload = DrugPayload(medName: string, dosageForm: string, dose: string, unit: string,
                                     schedule: seq<string>, customSchedule: string, startDate: string, endDate: string)

  /** The body of a prescription update request; an empty custom text is sent as null. */
  datatype PrescriptionPayload = PrescriptionPayload(medName: string, dosageForm: string, dose: string, unit: string,
                                                     schedule: seq<string>, customSchedule: Option<string>,
                                                     startDate: string, endDate: string)

  /** Which endpoint a save or delete calls, with the medication's id. */
  datatype SaveRequest = UpdateDrug(id: string, drug: DrugPayload) | UpdatePrescription(id: string, prescription: PrescriptionPayload)

  datatype DeleteRequest = DeleteDrug(id: string) | DeletePrescription(id: string)

  datatype SaveOutcome = CustomMissing | Saved(request: SaveRequest) | SaveFailed(request: SaveRequest)

  datatype DeleteOutcome = DeleteCancelled | Deleted(request: DeleteRequest) | DeleteFailed(request: DeleteRequest)

  /** The update request `onSave` sends: supplements go to the drug endpoint, everything else to the prescription endpoint. */
  function SaveRequestFor(med: Medication, form: EditForm, list: seq<string>, input: string): (r: SaveRequest)
    ensures r.id == med.id
    ensures r.UpdateDrug? <==> med.kind == Supplement
    ensures r.UpdateDrug? ==> r.drug.schedule == SelectedOptions(list) && r.drug.customSchedule == CustomText(list, input)
    ensures r.UpdatePrescription? ==> r.prescription.schedule == SelectedOptions(list)
    ensures r.UpdatePrescription? ==>
      (r.prescription.customSchedule.None? <==> CustomText(list, input) == "")
      && (r.prescription.customSchedule.Some? ==> r.prescription.customSchedule.value == CustomText(list, input))
  {
    var custom := CustomText(list, input);
    if med.kind == Supplement then
      UpdateDrug(med.id, DrugPayload(form.name, form.dosageForm, form.dose, form.unit, SelectedOptions(list), custom,
                                     form.startDate, form.endDate))
    else
      UpdatePrescription(med.id, PrescriptionPayload(form.name, form.dosageForm, form.dose, form.unit, SelectedOptions(list),
                                                     if custom == "" then None else Some(custom),
                                                     form.startDate, form.endDate))
  }

  function DeleteRequestFor(med: Medication): (r: DeleteRequest)
    ensures r.id == med.id
    ensures r.DeleteDrug? <==> med.kind == Supplement
  {
    if med.kind == Supplement then DeleteDrug(med.id) else DeletePrescription(med.id)
  }

  /** Every field of a mapped record except its id, as an update patch. */
  function PatchFrom(m: Medication): (p: MedicationPatch)
    ensures forall old_: Medication :: PatchMedication(old_, p) == m.(id := old_.id)
  {
    MedicationPatch(Some(m.name), Some(m.kind), Some(m.dosageForm), Some(m.dose), Some(m.unit), Some(m.schedule),
                    Some(m.startDate), Some(m.endDate))
  }

  /** The modal's state for one medication. */
  class MedDetail {
    const med: Medication
    var editing: bool
    var form: EditForm
    var scheduleList: seq<string>
    var customSchedule: string

    /** The form starts from the medication and its parsed schedule. */
    constructor(med: Medication)
      ensures this.med == med && !editing
      ensures form == EditForm(med.name, med.dosageForm, med.dose, med.unit, med.startDate, med.endDate)
      ensures scheduleList == ParseSchedule(med.schedule).list && customSchedule == ParseSchedule(med.schedule).custom
    {
      this.med := med;
      editing := false;
      form := EditForm(med.name, med.dosageForm, med.dose, med.unit, med.startDate, med.endDate);
      var parsed := ParseSchedule(med.schedule);
      scheduleList, customSchedule := parsed.list, parsed.custom;
    }

    method ToggleSchedule(option: string)
      modifies this
      ensures scheduleList == ToggleOption(old(scheduleList), option)
      ensures editing == old(editing) && form == old(form) && customSchedule == old(customSchedule)
    {
      if option in scheduleList {
        scheduleList := Filter(scheduleList, (x: string) => x != option);
      } else {
        scheduleList := scheduleList + [option];
      }
    }

    /** `startEditing`: the form is reloaded from the medication. */
    method StartEditing()
      modifies this
      ensures editing
      ensures form == EditForm(med.name, med.dosageForm, med.dose, med.unit, med.startDate, med.endDate)
      ensures scheduleList == ParseSchedule(med.schedule).list && customSchedule == ParseSchedule(med.schedule).custom
    {
      form := EditForm(med.name, med.dosageForm, med.dose, med.unit, med.startDate, med.endDate);
      scheduleList := ParseSchedule(med.schedule).list;
      customSchedule := ParseSchedule(med.schedule).custom;
      editing := true;
    }

    /**
     * `onSave`: rejected before any request when "기타" is checked with a blank
     * text; otherwise one update request, and on success the store entry with
     * this medication's id takes every field of the mapped reply but keeps its id.
     * Only the reply for the endpoint actually called is used.
     */
    method OnSave(store: HealthData, drugReply: ApiReply<DrugItem>, prescriptionReply: ApiReply<PrescriptionItem>)
      returns (outcome: SaveOutcome)
      modifies store
      ensures MissingCustom(scheduleList, customSchedule) ==> outcome == CustomMissing
      ensures !MissingCustom(scheduleList, customSchedule) ==>
        !outcome.CustomMissing? && outcome.request == SaveRequestFor(med, form, scheduleList, customSchedule)
      ensures outcome.Saved? && med.kind == Supplement ==>
        drugReply.Ok? && store.medications == UpdateMedication(old(store.medications), med.id, PatchFrom(MapDrugToMedication(drugReply.body, med.kind)))
      ensures outcome.Saved? && med.kind != Supplement ==>
        prescriptionReply.Ok? && store.medications == UpdateMedication(old(store.medications), med.id, PatchFrom(MapPrescriptionToMedication(prescriptionReply.body)))
      ensures !outcome.Saved? ==> store.medications == old(store.medications)
      ensures outcome.SaveFailed? ==> (if med.kind == Supplement then drugReply.Failed? else prescriptionReply.Failed?)
      ensures store.diseases == old(store.diseases) && store.allergies == old(store.allergies)
      ensures store.basicInfo == old(store.basicInfo) && store.currentDate == old(store.currentDate)
    {
      if MissingCustom(scheduleList, customSchedule) {
        return CustomMissing;
      }
      var request := SaveRequestFor(med, form, scheduleList, customSchedule);
      if med.kind == Supplement {
        if drugReply.Failed? {
          return SaveFailed(request);
        }
        var mapped := MapDrugToMedication(drugReply.body, med.kind);
        store.UpdateMedicationById(med.id, PatchFrom(mapped));
      } else {
        if prescriptionReply.Failed? {
          return SaveFailed(request);
        }
        var mapped := MapPrescriptionToMedication(prescriptionReply.body);
        store.UpdateMedicationById(med.id, PatchFrom(mapped));
      }
      outcome := Saved(request);
    }

    /** `onDelete`: nothing without confirmation; otherwise one delete request, and on success every store entry with this id is removed. */
    method OnDelete(store: HealthData, confirmed: bool, reply: ApiReply<string>) returns (outcome: DeleteOutcome)
      modifies store
      ensures !confirmed ==> outcome == DeleteCancelled
      ensures confirmed ==> !outcome.DeleteCancelled? && outcome.request == DeleteRequestFor(med)
      ensures confirmed && reply.Ok? ==> outcome.Deleted?
      ensures outcome.Deleted? ==> store.medications == DeleteMedication(old(store.medications), med.id)
      ensures !outcome.Deleted? ==> store.medications == old(store.medications)
      ensures store.diseases == old(store.diseases) && store.allergies == old(store.allergies)
      ensures store.basicInfo == old(store.basicInfo) && store.currentDate == old(store.currentDate)
    {
      if !confirmed {
        return DeleteCancelled;
      }
      var request := DeleteRequestFor(med);
      if reply.Failed? {
        return DeleteFailed(request);
      }
      store.DeleteMedicationById(med.id);
      outcome := Deleted(request);
    }
  }
}
