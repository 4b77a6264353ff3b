/**
 * The add-disease form (`DiseaseModal`): the Korean type labels the disease
 * screens share, and the submit handler that adds one disease to the store.
 */
module DiseaseModal {
  import opened JsString
  import opened HealthDataStore

  const ChronicLabel: string := "만성질환"
  const SimpleLabel: string := "급성질병"

  /** The label shown for a disease type. */
  function Label(kind: DiseaseKind): (shown: string)
    ensures shown == ChronicLabel <==> kind == Chronic
    ensures shown == SimpleLabel <==> kind == Simple
  {
    assert ChronicLabel != SimpleLabel by { assert ChronicLabel[0] == '만' && SimpleLabel[0] == '급'; }
    match kind
    case Chronic => ChronicLabel
    case Simple => SimpleLabel
  }

  /** The type a form label submits: chronic only for the chronic label, simple for anything else. */
  function KindOfLabel(text: string): (kind: DiseaseKind)
    ensures kind == Chronic <==> text == ChronicLabel
  {
    if text == ChronicLabel then Chronic else Simple
  }

  /** Showing a type and submitting its label gives the type back. */
  lemma LabelRoundTrip(kind: DiseaseKind)
    ensures KindOfLabel(Label(kind)) == kind
  {
  }

  datatype SubmitOutcome = BlankName | Added

  class DiseaseForm {
    var name: string
    var typeLabel: string
    var meds: string

    /** An empty form whose label follows the type the tab opened it with. */
    constructor(defaultType: DiseaseKind)
      ensures name == "" && meds == "" && typeLabel == Label(defaultType)
    {
      name, typeLabel, meds := "", Label(defaultType), "";
    }

    /**
     * `handleSubmit`: a blank name changes nothing; otherwise exactly one
     * disease is added with the name and medicines as typed.
     */
    method HandleSubmit(store: HealthData, now: int) returns (outcome: SubmitOutcome)
      modifies store
      ensures outcome == BlankName <==> IsBlank(name)
      ensures outcome == BlankName ==> store.diseases == old(store.diseases)
      ensures outcome == Added ==> store.diseases == AddDisease(old(store.diseases), name, KindOfLabel(typeLabel), meds, now)
      ensures store.medications == old(store.medications) && store.allergies == old(store.allergies)
      ensures store.basicInfo == old(store.basicInfo) && store.currentDate == old(store.currentDate)
    {
      if IsBlank(name) {
        return BlankName;
      }
      store.AddDiseaseAt(name, KindOfLabel(typeLabel), meds, now);
      outcome := Added;
    }
  }
}
