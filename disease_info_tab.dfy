/**
 * The disease tab (`DiseaseInfoTab`): the type filter, the tag of each row and
 * the medicine list a row shows from its comma-separated text.
 */
module DiseaseInfoTab {
  import opened Seqs
  import opened JsString
  import opened HealthDataStore
  import DiseaseModal

  datatype DiseaseFilter = All | OnlyKind(kind: DiseaseKind)

  function ShownBy(filter: DiseaseFilter): Disease -> bool
  {
    (d: Disease) => filter.All? || filter.kind == d.kind
  }

  /** `filter === 'all' || filter === d.type`, in store order. */
  function FilterDiseases(diseases: seq<Disease>, filter: DiseaseFilter): (r: seq<Disease>)
    ensures filter.All? ==> r == diseases
    ensures forall i :: 0 <= i < |r| ==> r[i] in diseases && (filter.All? || r[i].kind == filter.kind)
    ensures forall i :: 0 <= i < |diseases| && (filter.All? || diseases[i].kind == filter.kind) ==> diseases[i] in r
    ensures IsSubsequence(r, diseases) && |r| == Count(diseases, ShownBy(filter))
  {
    FilterInOrder(diseases, ShownBy(filter));
    if filter.All? then
      FilterKeepsAll(diseases, ShownBy(filter));
      Filter(diseases, ShownBy(filter))
    else
      Filter(diseases, ShownBy(filter))
  }

  /** The tag of a row is the type's label. */
  function Tag(d: Disease): (tag: string)
    ensures tag == DiseaseModal.ChronicLabel <==> d.kind == Chronic
    ensures tag == DiseaseModal.SimpleLabel <==> d.kind == Simple
  {
    DiseaseModal.Label(d.kind)
  }

  predicate NonEmpty(s: string)
  {
    |s| > 0
  }

  /** `medList`: the trimmed comma-separated pieces that are not empty, in order; no pieces for an empty text. */
  function MedList(meds: string): (r: seq<string>)
    ensures meds == "" ==> r == []
    ensures forall i :: 0 <= i < |r| ==> r[i] != "" && IsTrimmed(r[i]) && ',' !in r[i]
    ensures meds != "" ==> IsSelection(r, TrimAll(Split(meds, ',')), NonEmpty)
  {
    if meds == "" then []
    else
      var split := Split(meds, ',');
      var pieces := TrimAll(split);
      assert forall i :: 0 <= i < |pieces| ==> ',' !in pieces[i] by {
        forall i | 0 <= i < |pieces| ensures ',' !in pieces[i] {
          TrimKeepsChars(split[i]);
        }
      }
      FilterIsSelection(pieces, NonEmpty);
      Filter(pieces, NonEmpty)
  }

  /** A list written as names joined with `", "` reads back as the same names. */
  lemma MedListOfJoin(names: seq<string>)
    requires |names| >= 1
    requires forall i :: 0 <= i < |names| ==> names[i] != "" && IsTrimmed(names[i]) && ',' !in names[i]
    ensures MedList(Join(names, ", ")) == names
  {
    var text := Join(names, ", ");
    JoinLongerThanFirst(names);
    assert text != "";
    SplitCommaSpaceJoin(names);
    TrimAllTrimmed(names);
    assert TrimAll(Split(text, ',')) == names;
    FilterKeepsAll(names, NonEmpty);
  }

  lemma {:induction false} JoinLongerThanFirst(names: seq<string>)
    requires |names| >= 1
    ensures |Join(names, ", ")| >= |names[0]|
  {
  }
}
