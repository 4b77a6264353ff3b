/**
 * The personal health record store (`useHealthDataStore`): basic
 * information, diseases, medications and allergies. Records get an id made
 * of a prefix and the clock reading when they are added; updates merge a
 * partial record into every entry with the given id; deletes drop every
 * entry with the given id.
 */
module HealthDataStore {
  import opened Wrappers
  import opened Seqs
  import JsString

  datatype Gender = Male | Female

  datatype BasicInfo = BasicInfo(birth: string, gender: Gender, height: string, weight: string,
                                 bloodType: string, smoke: string, drink: string)

  /** Every text field empty, gender 여성. */
  const DefaultBasicInfo := BasicInfo("", Female, "", "", "", "", "")

  datatype DiseaseKind = Chronic | Simple

  datatype Disease = Disease(id: string, name: string, kind: DiseaseKind, meds: string)

  datatype MedKind = Prescription | Supplement

  datatype Medication = Medication(id: string, name: string, kind: MedKind, dosageForm: string, dose: string,
                                   unit: string, schedule: string, startDate: string, endDate: string)

  datatype Allergy = Allergy(id: string, name: string)

  /** A `Partial<Omit<Disease, "id">>`: a field is replaced only when present. */
  datatype DiseasePatch = DiseasePatch(name: Option<string>, kind: Option<DiseaseKind>, meds: Option<string>)

  datatype MedicationPatch = MedicationPatch(
    name: Option<string>, kind: Option<MedKind>, dosageForm: Option<string>, dose: Option<string>,
    unit: Option<string>, schedule: Option<string>, startDate: Option<string>, endDate: Option<string>)

  datatype AllergyPatch = AllergyPatch(name: Option<string>)

  /** The id `${prefix}${Date.now()}` given to a record added at time `now`. */
  function StampedId(prefix: char, now: int): (id: string)
    ensures |id| >= 3 && id[0] == prefix && id[1] == '_'
    ensures id[2..] == JsString.DecimalString(now)
  {
    [prefix, '_'] + JsString.DecimalString(now)
  }

  /** Two records added at different instants never share an id. */
  lemma StampedIdsDistinct(prefix: char, t1: int, t2: int)
    requires t1 != t2
    ensures StampedId(prefix, t1) != StampedId(prefix, t2)
  {
    if StampedId(prefix, t1) == StampedId(prefix, t2) {
      assert StampedId(prefix, t1)[2..] == StampedId(prefix, t2)[2..];
      JsString.DecimalStringInjective(t1, t2);
    }
  }

  // --- merging a partial record: `{ ...record, ...patch }` --------------------

  function PatchDisease(d: Disease, p: DiseasePatch): (r: Disease)
    ensures r.id == d.id
    ensures r.name == p.name.GetOr(d.name) && r.kind == p.kind.GetOr(d.kind) && r.meds == p.meds.GetOr(d.meds)
  {
    Disease(d.id, p.name.GetOr(d.name), p.kind.GetOr(d.kind), p.meds.GetOr(d.meds))
  }

  function PatchMedication(m: Medication, p: MedicationPatch): (r: Medication)
    ensures r.id == m.id
    ensures r.name == p.name.GetOr(m.name) && r.kind == p.kind.GetOr(m.kind)
    ensures r.dosageForm == p.dosageForm.GetOr(m.dosageForm) && r.dose == p.dose.GetOr(m.dose)
    ensures r.unit == p.unit.GetOr(m.unit) && r.schedule == p.schedule.GetOr(m.schedule)
    ensures r.startDate == p.startDate.GetOr(m.startDate) && r.endDate == p.endDate.GetOr(m.endDate)
  {
    Medication(m.id, p.name.GetOr(m.name), p.kind.GetOr(m.kind), p.dosageForm.GetOr(m.dosageForm),
               p.dose.GetOr(m.dose), p.unit.GetOr(m.unit), p.schedule.GetOr(m.schedule),
               p.startDate.GetOr(m.startDate), p.endDate.GetOr(m.endDate))
  }

  function PatchAllergy(a: Allergy, p: AllergyPatch): (r: Allergy)
    ensures r.id == a.id && r.name == p.name.GetOr(a.name)
  {
    Allergy(a.id, p.name.GetOr(a.name))
  }

  // --- diseases ---------------------------------------------------------------

  /** `addDisease`: appended at the end with a fresh time-stamped id. */
  function AddDisease(diseases: seq<Disease>, name: string, kind: DiseaseKind, meds: string, now: int): (r: seq<Disease>)
    ensures |r| == |diseases| + 1 && r[..|diseases|] == diseases
    ensures r[|diseases|] == Disease(StampedId('d', now), name, kind, meds)
  {
    diseases + [Disease(StampedId('d', now), name, kind, meds)]
  }

  /** `updateDisease`: every entry with the id gets the patch, keeping its id; the others and the order stay as they were. */
  function UpdateDisease(diseases: seq<Disease>, id: string, patch: DiseasePatch): (r: seq<Disease>)
    ensures |r| == |diseases|
    ensures forall i :: 0 <= i < |r| ==> r[i].id == diseases[i].id
    ensures forall i :: 0 <= i < |r| ==> r[i] == if diseases[i].id == id then PatchDisease(diseases[i], patch) else diseases[i]
  {
    MapWhere(diseases, (d: Disease) => d.id == id, (d: Disease) => PatchDisease(d, patch))
  }

  function OtherThanDisease(id: string): Disease -> bool
  {
    (d: Disease) => d.id != id
  }

  /** `deleteDisease`: no entry with the id is left; every other entry is kept, in its original order. */
  function DeleteDisease(diseases: seq<Disease>, id: string): (r: seq<Disease>)
    ensures forall i :: 0 <= i < |r| ==> r[i].id != id && r[i] in diseases
    ensures forall i :: 0 <= i < |diseases| && diseases[i].id != id ==> diseases[i] in r
    ensures |r| == |diseases| - Count(diseases, (d: Disease) => d.id == id)
    ensures IsSubsequence(r, diseases)
  {
    var keep := OtherThanDisease(id);
    var r := Filter(diseases, keep);
    FilterInOrder(diseases, keep);
    assert |r| == |diseases| - Count(diseases, (d: Disease) => d.id == id) by {
      CountComplement(diseases, (d: Disease) => d.id == id, keep);
    }
    r
  }

  /** Deleting the same id twice is deleting it once. */
  lemma DeleteDiseaseTwice(diseases: seq<Disease>, id: string)
    ensures DeleteDisease(DeleteDisease(diseases, id), id) == DeleteDisease(diseases, id)
  {
    FilterIdempotent(diseases, OtherThanDisease(id));
  }

  /** Deleting the entry just added, under an id nobody held before, undoes the add. */
  lemma DeleteUndoesAddDisease(diseases: seq<Disease>, name: string, kind: DiseaseKind, meds: string, now: int)
    requires forall i :: 0 <= i < |diseases| ==> diseases[i].id != StampedId('d', now)
    ensures DeleteDisease(AddDisease(diseases, name, kind, meds, now), StampedId('d', now)) == diseases
  {
    var id := StampedId('d', now);
    FilterDropsAppended(diseases, Disease(id, name, kind, meds), OtherThanDisease(id));
  }

  // --- medications ------------------------------------------------------------

  function AddMedication(medications: seq<Medication>, name: string, kind: MedKind, dosageForm: string, dose: string,
                         unit: string, schedule: string, startDate: string, endDate: string, now: int): (r: seq<Medication>)
    ensures |r| == |medications| + 1 && r[..|medications|] == medications
    ensures r[|medications|] == Medication(StampedId('m', now), name, kind, dosageForm, dose, unit, schedule, startDate, endDate)
  {
    medications + [Medication(StampedId('m', now), name, kind, dosageForm, dose, unit, schedule, startDate, endDate)]
  }

  function UpdateMedication(medications: seq<Medication>, id: string, patch: MedicationPatch): (r: seq<Medication>)
    ensures |r| == |medications|
    ensures forall i :: 0 <= i < |r| ==> r[i].id == medications[i].id
    ensures forall i :: 0 <= i < |r| ==> r[i] == if medications[i].id == id then PatchMedication(medications[i], patch) else medications[i]
  {
    MapWhere(medications, (m: Medication) => m.id == id, (m: Medication) => PatchMedication(m, patch))
  }

  function OtherThanMedication(id: string): Medication -> bool
  {
    (m: Medication) => m.id != id
  }

  function DeleteMedication(medications: seq<Medication>, id: string): (r: seq<Medication>)
    ensures forall i :: 0 <= i < |r| ==> r[i].id != id && r[i] in medications
    ensures forall i :: 0 <= i < |medications| && medications[i].id != id ==> medications[i] in r
    ensures |r| == |medications| - Count(medications, (m: Medication) => m.id == id)
    ensures IsSubsequence(r, medications)
  {
    var keep := OtherThanMedication(id);
    var r := Filter(medications, keep);
    FilterInOrder(medications, keep);
    assert |r| == |medications| - Count(medications, (m: Medication) => m.id == id) by {
      CountComplement(medications, (m: Medication) => m.id == id, keep);
    }
    r
  }

  /** Deleting the same id twice is deleting it once. */
  lemma DeleteMedicationTwice(medications: seq<Medication>, id: string)
    ensures DeleteMedication(DeleteMedication(medications, id), id) == DeleteMedication(medications, id)
  {
    FilterIdempotent(medications, OtherThanMedication(id));
  }

  lemma DeleteUndoesAddMedication(medications: seq<Medication>, name: string, kind: MedKind, dosageForm: string,
                                  dose: string, unit: string, schedule: string, startDate: string, endDate: string, now: int)
    requires forall i :: 0 <= i < |medications| ==> medications[i].id != StampedId('m', now)
    ensures DeleteMedication(AddMedication(medications, name, kind, dosageForm, dose, unit, schedule, startDate, endDate, now),
                             StampedId('m', now)) == medications
  {
    var id := StampedId('m', now);
    FilterDropsAppended(medications, Medication(id, name, kind, dosageForm, dose, unit, schedule, startDate, endDate),
                        OtherThanMedication(id));
  }

  // --- allergies --------------------------------------------------------------

  function AddAllergy(allergies: seq<Allergy>, name: string, now: int): (r: seq<Allergy>)
    ensures |r| == |allergies| + 1 && r[..|allergies|] == allergies
    ensures r[|allergies|] == Allergy(StampedId('a', now), name)
  {
    allergies + [Allergy(StampedId('a', now), name)]
  }

  function UpdateAllergy(allergies: seq<Allergy>, id: string, patch: AllergyPatch): (r: seq<Allergy>)
    ensures |r| == |allergies|
    ensures forall i :: 0 <= i < |r| ==> r[i].id == allergies[i].id
    ensures forall i :: 0 <= i < |r| ==> r[i] == if allergies[i].id == id then PatchAllergy(allergies[i], patch) else allergies[i]
  {
    MapWhere(allergies, (a: Allergy) => a.id == id, (a: Allergy) => PatchAllergy(a, patch))
  }

  function OtherThanAllergy(id: string): Allergy -> bool
  {
    (a: Allergy) => a.id != id
  }

  function DeleteAllergy(allergies: seq<Allergy>, id: string): (r: seq<Allergy>)
    ensures forall i :: 0 <= i < |r| ==> r[i].id != id && r[i] in allergies
    ensures forall i :: 0 <= i < |allergies| && allergies[i].id != id ==> allergies[i] in r
    ensures |r| == |allergies| - Count(allergies, (a: Allergy) => a.id == id)
    ensures IsSubsequence(r, allergies)
  {
    var keep := OtherThanAllergy(id);
    var r := Filter(allergies, keep);
    FilterInOrder(allergies, keep);
    assert |r| == |allergies| - Count(allergies, (a: Allergy) => a.id == id) by {
      CountComplement(allergies, (a: Allergy) => a.id == id, keep);
    }
    r
  }

  /** Deleting the same id twice is deleting it once. */
  lemma DeleteAllergyTwice(allergies: seq<Allergy>, id: string)
    ensures DeleteAllergy(DeleteAllergy(allergies, id), id) == DeleteAllergy(allergies, id)
  {
    FilterIdempotent(allergies, OtherThanAllergy(id));
  }

  lemma DeleteUndoesAddAllergy(allergies: seq<Allergy>, name: string, now: int)
    requires forall i :: 0 <= i < |allergies| ==> allergies[i].id != StampedId('a', now)
    ensures DeleteAllergy(AddAllergy(allergies, name, now), StampedId('a', now)) == allergies
  {
    var id := StampedId('a', now);
    FilterDropsAppended(allergies, Allergy(id, name), OtherThanAllergy(id));
  }

  /** The store itself; every action replaces one collection and leaves the others alone. */
  class HealthData {
    var basicInfo: BasicInfo
    var diseases: seq<Disease>
    var medications: seq<Medication>
    var allergies: seq<Allergy>
    var currentDate: string

    /** The initial state on a given day (`today()` is a parameter). */
    constructor(today: string)
      ensures basicInfo == DefaultBasicInfo && diseases == [] && medications == [] && allergies == []
      ensures currentDate == today
    {
      basicInfo, diseases, medications, allergies, currentDate := DefaultBasicInfo, [], [], [], today;
    }

    method UpdateBasicInfo(info: BasicInfo)
      modifies this
      ensures basicInfo == info
      ensures diseases == old(diseases) && medications == old(medications) && allergies == old(allergies) && currentDate == old(currentDate)
    {
      basicInfo := info;
    }

    method AddDiseaseAt(name: string, kind: DiseaseKind, meds: string, now: int)
      modifies this
      ensures diseases == AddDisease(old(diseases), name, kind, meds, now)
      ensures basicInfo == old(basicInfo) && medications == old(medications) && allergies == old(allergies) && currentDate == old(currentDate)
    {
      diseases := diseases + [Disease(StampedId('d', now), name, kind, meds)];
    }

    method UpdateDiseaseById(id: string, patch: DiseasePatch)
      modifies this
      ensures diseases == UpdateDisease(old(diseases), id, patch)
      ensures basicInfo == old(basicInfo) && medications == old(medications) && allergies == old(allergies) && currentDate == old(currentDate)
    {
      diseases := UpdateDisease(diseases, id, patch);
    }

    method DeleteDiseaseById(id: string)
      modifies this
      ensures diseases == DeleteDisease(old(diseases), id)
      ensures basicInfo == old(basicInfo) && medications == old(medications) && allergies == old(allergies) && currentDate == old(currentDate)
    {
      var kept := DeleteDisease(diseases, id);
      diseases := kept;
    }

    method AddMedicationAt(name: string, kind: MedKind, dosageForm: string, dose: string, unit: string,
                           schedule: string, startDate: string, endDate: string, now: int)
      modifies this
      ensures medications == AddMedication(old(medications), name, kind, dosageForm, dose, unit, schedule, startDate, endDate, now)
      ensures basicInfo == old(basicInfo) && diseases == old(diseases) && allergies == old(allergies) && currentDate == old(currentDate)
    {
      medications := medications + [Medication(StampedId('m', now), name, kind, dosageForm, dose, unit, schedule, startDate, endDate)];
    }

    method UpdateMedicationById(id: string, patch: MedicationPatch)
      modifies this
      ensures medications == UpdateMedication(old(medications), id, patch)
      ensures basicInfo == old(basicInfo) && diseases == old(diseases) && allergies == old(allergies) && currentDate == old(currentDate)
    {
      medications := UpdateMedication(medications, id, patch);
    }

    method DeleteMedicationById(id: string)
      modifies this
      ensures medications == DeleteMedication(old(medications), id)
      ensures basicInfo == old(basicInfo) && diseases == old(diseases) && allergies == old(allergies) && currentDate == old(currentDate)
    {
      var kept := DeleteMedication(medications, id);
      medications := kept;
    }

    /** Replaces the medication list wholesale, as the pages do through `setState`. */
    method SetMedications(list: seq<Medication>)
      modifies this
      ensures medications == list
      ensures basicInfo == old(basicInfo) && diseases == old(diseases) && allergies == old(allergies) && currentDate == old(currentDate)
    {
      medications := list;
    }

    method AddAllergyAt(name: string, now: int)
      modifies this
      ensures allergies == AddAllergy(old(allergies), name, now)
      ensures basicInfo == old(basicInfo) && diseases == old(diseases) && medications == old(medications) && currentDate == old(currentDate)
    {
      allergies := allergies + [Allergy(StampedId('a', now), name)];
    }

    method UpdateAllergyById(id: string, patch: AllergyPatch)
      modifies this
      ensures allergies == UpdateAllergy(old(allergies), id, patch)
      ensures basicInfo == old(basicInfo) && diseases == old(diseases) && medications == old(medications) && currentDate == old(currentDate)
    {
      allergies := UpdateAllergy(allergies, id, patch);
    }

    method DeleteAllergyById(id: string)
      modifies this
      ensures allergies == DeleteAllergy(old(allergies), id)
      ensures basicInfo == old(basicInfo) && diseases == old(diseases) && medications == old(medications) && currentDate == old(currentDate)
    {
      var kept := DeleteAllergy(allergies, id);
      allergies := kept;
    }

    method UpdateCurrentDate(date: string)
      modifies this
      ensures currentDate == date
      ensures basicInfo == old(basicInfo) && diseases == old(diseases) && medications == old(medications) && allergies == old(allergies)
    {
      currentDate := date;
    }

    /** `resetAll()` on a given day: back to the initial state. */
    method ResetAll(today: string)
      modifies this
      ensures basicInfo == DefaultBasicInfo && diseases == [] && medications == [] && allergies == []
      ensures currentDate == today
    {
      basicInfo, diseases, medications, allergies, currentDate := DefaultBasicInfo, [], [], [], today;
    }
  }
}
