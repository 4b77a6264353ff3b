/**
 * The disease detail modal (`DiseaseDetailModal`): an edit form over one
 * disease whose save patches all three fields without validation, and a
 * delete that needs confirmation.
 */
module DiseaseDetailModal {
  import opened Wrappers
  import opened HealthDataStore
  import opened DiseaseModal

  datatype DeleteOutcome = Kept | Removed

  class DiseaseDetail {
    const disease: Disease
    var editing: bool
    var name: string
    var typeLabel: string
    var meds: string

    /** The form starts from the disease, its type shown as a label. */
    constructor(disease: Disease)
      ensures this.disease == disease && !editing
      ensures name == disease.name && typeLabel == Label(disease.kind) && meds == disease.meds
    {
      this.disease := disease;
      editing := false;
      name, typeLabel, meds := disease.name, Label(disease.kind), disease.meds;
    }

    /** The patch `onSave` sends: every field of the form, the label turned back into a type. */
    function SavePatch(): (p: DiseasePatch)
      reads this
      ensures p.name == Some(name) && p.meds == Some(meds)
      ensures p.kind == Some(Chronic) <==> typeLabel == ChronicLabel
    {
      DiseasePatch(Some(name), Some(KindOfLabel(typeLabel)), Some(meds))
    }

    /** `onSave`: no check at all (an empty name is stored); only the entries with this disease's id change. */
    method OnSave(store: HealthData)
      modifies store
      ensures store.diseases == UpdateDisease(old(store.diseases), disease.id, SavePatch())
      ensures store.medications == old(store.medications) && store.allergies == old(store.allergies)
      ensures store.basicInfo == old(store.basicInfo) && store.currentDate == old(store.currentDate)
    {
      store.UpdateDiseaseById(disease.id, SavePatch());
    }

    /** `onDelete`: the disease is removed only when the user confirms. */
    method OnDelete(store: HealthData, confirmed: bool) returns (outcome: DeleteOutcome)
      modifies store
      ensures outcome == Removed <==> confirmed
      ensures confirmed ==> store.diseases == DeleteDisease(old(store.diseases), disease.id)
      ensures !confirmed ==> store.diseases == old(store.diseases)
      ensures store.medications == old(store.medications) && store.allergies == old(store.allergies)
      ensures store.basicInfo == old(store.basicInfo) && store.currentDate == old(store.currentDate)
    {
      if !confirmed {
        return Kept;
      }
      store.DeleteDiseaseById(disease.id);
      outcome := Removed;
    }
  }

  /** Saving an unedited form writes the disease back unchanged. */
  lemma UneditedSaveKeepsDisease(d: Disease)
    ensures PatchDisease(d, DiseasePatch(Some(d.name), Some(KindOfLabel(Label(d.kind))), Some(d.meds))) == d
  {
    LabelRoundTrip(d.kind);
  }
}
