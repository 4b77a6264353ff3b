/**
 * The medication tab (`MedInfoTab`): the list load that merges prescriptions
 * and supplements from the two backend lists, and the type filter.
 */
module MedInfoTab {
  import opened Wrappers
  import opened Seqs
  import opened HealthDataStore
  import opened MedDetailModal

  /** The filter buttons: everything, or one medication type. */
  datatype MedFilter = All | OnlyKind(kind: MedKind)

  /** The drug mapper of this tab: always of type supplement. */
  function SupplementRecord(item: DrugItem): Medication
  {
    MapDrugToMedication(item, Supplement)
  }

  /** The list a successful load stores: every mapped prescription, then every mapped drug, each in backend order. */
  function MergedMeds(prescriptions: seq<PrescriptionItem>, drugs: seq<DrugItem>): (r: seq<Medication>)
    ensures |r| == |prescriptions| + |drugs|
    ensures forall i :: 0 <= i < |prescriptions| ==> r[i] == MapPrescriptionToMedication(prescriptions[i])
    ensures forall j :: 0 <= j < |drugs| ==> r[|prescriptions| + j] == MapDrugToMedication(drugs[j], Supplement)
    ensures forall i :: 0 <= i < |prescriptions| ==> r[i].kind == Prescription
    ensures forall j :: |prescriptions| <= j < |r| ==> r[j].kind == Supplement
  {
    Map(prescriptions, MapPrescriptionToMedication) + Map(drugs, SupplementRecord)
  }

  /** `filter === "all" || filter === med.type`. */
  predicate Shown(filter: MedFilter, m: Medication)
  {
    filter.All? || filter.kind == m.kind
  }

  function ShownBy(filter: MedFilter): Medication -> bool
  {
    m => Shown(filter, m)
  }

  function FilterMeds(meds: seq<Medication>, filter: MedFilter): (r: seq<Medication>)
    ensures filter.All? ==> r == meds
    ensures forall i :: 0 <= i < |r| ==> r[i] in meds && Shown(filter, r[i])
    ensures forall i :: 0 <= i < |meds| && Shown(filter, meds[i]) ==> meds[i] in r
    ensures IsSubsequence(r, meds) && |r| == Count(meds, ShownBy(filter))
  {
    FilterInOrder(meds, ShownBy(filter));
    if filter.All? then
      FilterKeepsAll(meds, ShownBy(filter));
      Filter(meds, ShownBy(filter))
    else
      Filter(meds, ShownBy(filter))
  }

  /** Filtering a freshly loaded list by type gives back exactly that group, in backend order. */
  lemma FilterLoadedPrescriptions(prescriptions: seq<PrescriptionItem>, drugs: seq<DrugItem>)
    ensures FilterMeds(MergedMeds(prescriptions, drugs), OnlyKind(Prescription)) == Map(prescriptions, MapPrescriptionToMedication)
  {
    var ps := Map(prescriptions, MapPrescriptionToMedication);
    var ds := Map(drugs, SupplementRecord);
    var keep := ShownBy(OnlyKind(Prescription));
    assert forall i :: 0 <= i < |ps| ==> keep(ps[i]);
    assert forall i :: 0 <= i < |ds| ==> !keep(ds[i]);
    FilterSplit(ps, ds, keep);
  }

  lemma FilterLoadedSupplements(prescriptions: seq<PrescriptionItem>, drugs: seq<DrugItem>)
    ensures FilterMeds(MergedMeds(prescriptions, drugs), OnlyKind(Supplement)) == Map(drugs, SupplementRecord)
  {
    var ps := Map(prescriptions, MapPrescriptionToMedication);
    var ds := Map(drugs, SupplementRecord);
    var keep := ShownBy(OnlyKind(Supplement));
    assert forall i :: 0 <= i < |ps| ==> !keep(ps[i]);
    assert forall i :: 0 <= i < |ds| ==> keep(ds[i]);
    FilterSplitBack(ps, ds, keep);
  }

  /** `fetchMeds`: both lists are requested together; only when both succeed is the store's list replaced. */
  method FetchMeds(store: HealthData, prescriptions: ApiReply<seq<PrescriptionItem>>, drugs: ApiReply<seq<DrugItem>>)
    returns (loaded: bool)
    modifies store
    ensures loaded <==> prescriptions.Ok? && drugs.Ok?
    ensures loaded ==> store.medications == MergedMeds(prescriptions.body, drugs.body)
    ensures !loaded ==> store.medications == old(store.medications)
    ensures store.diseases == old(store.diseases) && store.allergies == old(store.allergies)
    ensures store.basicInfo == old(store.basicInfo) && store.currentDate == old(store.currentDate)
  {
    if prescriptions.Failed? || drugs.Failed? {
      return false;
    }
    store.SetMedications(MergedMeds(prescriptions.body, drugs.body));
    loaded := true;
  }
}
