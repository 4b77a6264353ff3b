/**
 * The visit history page (`MedicalHistoryPage`): the record list loaded from
 * the visits API, the search box, creating, editing and deleting records,
 * attaching a prescription name to the open record, and the choice of
 * capture method for a new record.
 */
module MedicalHistoryPage {
  import opened Wrappers
  import opened Seqs
  import opened JsString
  import opened HistoryForm

  /** `HistoryRecord`: a visit as the page shows it; `id` is the visit id as text. */
  datatype HistoryRecord = HistoryRecord(id: string, title: string, date: string, hospital: string, doctor: string,
                                         symptoms: string, notes: string, meds: seq<string>)

  /** `VisitResponse`, as the visits API returns it. */
  datatype VisitResponse = VisitResponse(visitId: int, hospital: string, date: string, dept: string,
                                         diagnosisCode: string, diagnosisName: string, doctorName: string,
                                         symptom: string, opinion: string)

  /** `VisitPayload`, as the page sends it. */
  datatype VisitPayload = VisitPayload(hospital: string, date: string, dept: string, diagnosisCode: string,
                                       title: string, doctor: string, symptoms: string, notes: string, memo: string)

  /** `mapVisitToRecord`: the id printed as text, the diagnosis (or else the hospital) as title, no prescriptions yet. */
  function MapVisitToRecord(v: VisitResponse): (r: HistoryRecord)
    ensures r.id == DecimalString(v.visitId) && r.meds == []
    ensures r.title == (if v.diagnosisName != "" then v.diagnosisName else v.hospital)
    ensures r.date == v.date && r.hospital == v.hospital && r.doctor == v.doctorName
    ensures r.symptoms == v.symptom && r.notes == v.opinion
  {
    HistoryRecord(DecimalString(v.visitId),
                  if v.diagnosisName != "" then v.diagnosisName else if v.hospital != "" then v.hospital else "",
                  v.date, v.hospital, v.doctorName, v.symptom, v.opinion, [])
  }

  /** The form fields of a record (`toVisitPayload` accepts either). */
  function FormOf(r: HistoryRecord): FormData
  {
    FormData(r.title, r.date, r.hospital, r.doctor, r.symptoms, r.notes)
  }

  /** `toVisitPayload`: the six form fields copied; department, diagnosis code and memo always empty. */
  function ToVisitPayload(data: FormData): (p: VisitPayload)
    ensures p.dept == "" && p.diagnosisCode == "" && p.memo == ""
    ensures FormData(p.title, p.date, p.hospital, p.doctor, p.symptoms, p.notes) == data
  {
    VisitPayload(data.hospital, data.date, "", "", data.title, data.doctor, data.symptoms, data.notes, "")
  }

  /** A record read from the server and sent straight back carries the server's hospital, date, doctor, symptoms and opinion. */
  lemma PayloadOfMappedVisit(v: VisitResponse)
    ensures var p := ToVisitPayload(FormOf(MapVisitToRecord(v)));
      p.hospital == v.hospital && p.date == v.date && p.doctor == v.doctorName
      && p.symptoms == v.symptom && p.notes == v.opinion
      && p.title == (if v.diagnosisName != "" then v.diagnosisName else v.hospital)
  {
  }

  /** `Number(updated.id)` recovers the visit id of a record made by `mapVisitToRecord`. */
  lemma MappedIdReadsBack(v: VisitResponse)
    ensures NumberOf(MapVisitToRecord(v).id) == Some(v.visitId)
  {
    NumberOfDecimalString(v.visitId);
  }

  /** Visits with distinct ids give records with distinct ids. */
  lemma MappedIdsDistinct(v: VisitResponse, w: VisitResponse)
    requires v.visitId != w.visitId
    ensures MapVisitToRecord(v).id != MapVisitToRecord(w).id
  {
    if MapVisitToRecord(v).id == MapVisitToRecord(w).id {
      DecimalStringInjective(v.visitId, w.visitId);
    }
  }

  /** The normalised query: trimmed, then lower-cased. */
  function SearchKey(query: string): string
  {
    ToLowerAscii(Trim(query))
  }

  /** One record against a non-empty key: hospital, title, symptoms, or the prescriptions joined by spaces. */
  predicate MatchesKey(r: HistoryRecord, key: string)
  {
    Contains(ToLowerAscii(r.hospital), key) || Contains(ToLowerAscii(r.title), key)
    || Contains(ToLowerAscii(r.symptoms), key) || Contains(ToLowerAscii(Join(r.meds, " ")), key)
  }

  function MatchesBy(key: string): HistoryRecord -> bool
  {
    (r: HistoryRecord) => MatchesKey(r, key)
  }

  /** `filtered`: everything for a blank query, otherwise the matching records in list order. */
  function Search(records: seq<HistoryRecord>, query: string): (r: seq<HistoryRecord>)
    ensures SearchKey(query) == "" ==> r == records
    ensures SearchKey(query) != "" ==> forall x :: x in r <==> x in records && MatchesKey(x, SearchKey(query))
    ensures SearchKey(query) != "" ==> |r| == Count(records, MatchesBy(SearchKey(query)))
    ensures IsSubsequence(r, records)
  {
    var key := SearchKey(query);
    if key == "" then
      SubsequenceOfItself(records);
      records
    else
      FilterMembers(records, MatchesBy(key));
      FilterInOrder(records, MatchesBy(key));
      Filter(records, MatchesBy(key))
  }

  /** A query naming a record's hospital, in any ASCII letter case and with surrounding spaces, finds that record. */
  lemma SearchFindsHospital(records: seq<HistoryRecord>, query: string, k: int)
    requires 0 <= k < |records|
    requires SearchKey(query) != "" && SearchKey(query) == ToLowerAscii(records[k].hospital)
    ensures records[k] in Search(records, query)
  {
    var h := ToLowerAscii(records[k].hospital);
    ContainsSlice(h, 0, |h|);
    assert h[0..|h|] == h;
  }

  function OtherThanRecord(id: string): HistoryRecord -> bool
  {
    (x: HistoryRecord) => x.id != id
  }

  /** `handleDelete`'s filter: every record but those with the id, in order, each copy kept. */
  function WithoutId(records: seq<HistoryRecord>, id: string): (r: seq<HistoryRecord>)
    ensures forall x :: x in r <==> x in records && x.id != id
    ensures IsSubsequence(r, records) && |r| == Count(records, OtherThanRecord(id))
  {
    var keep := OtherThanRecord(id);
    FilterMembers(records, keep);
    FilterInOrder(records, keep);
    Filter(records, keep)
  }

  /** `handleUpdate`'s map: records with the id of `mapped` are replaced by it. */
  function ReplaceById(records: seq<HistoryRecord>, mapped: HistoryRecord): (r: seq<HistoryRecord>)
    ensures |r| == |records|
    ensures forall i :: 0 <= i < |r| ==> r[i] == if records[i].id == mapped.id then mapped else records[i]
  {
    MapWhere(records, (x: HistoryRecord) => x.id == mapped.id, (x: HistoryRecord) => mapped)
  }

  /** Deleting after replacing the same id leaves what deleting alone leaves. */
  lemma DeleteAfterReplace(records: seq<HistoryRecord>, mapped: HistoryRecord)
    ensures WithoutId(ReplaceById(records, mapped), mapped.id) == WithoutId(records, mapped.id)
  {
    ReplaceThenDrop(records, mapped);
  }

  lemma {:induction false} ReplaceThenDrop(records: seq<HistoryRecord>, mapped: HistoryRecord)
    ensures Filter(ReplaceById(records, mapped), (x: HistoryRecord) => x.id != mapped.id)
         == Filter(records, (x: HistoryRecord) => x.id != mapped.id)
  {
    if records != [] {
      ReplaceThenDrop(records[1..], mapped);
      assert ReplaceById(records, mapped)[1..] == ReplaceById(records[1..], mapped);
    }
  }

  /** `onAdded` for the open record: the prescription name is appended to records with its id. */
  function AppendMed(records: seq<HistoryRecord>, id: string, medName: string): (r: seq<HistoryRecord>)
    ensures |r| == |records|
    ensures forall i :: 0 <= i < |r| ==>
      if records[i].id == id then r[i] == records[i].(meds := records[i].meds + [medName]) else r[i] == records[i]
  {
    MapWhere(records, (x: HistoryRecord) => x.id == id, (x: HistoryRecord) => x.(meds := x.meds + [medName]))
  }

  /** The page's views. */
  datatype PageState = ListView | SelectMethod | VoiceFlow | OcrFlow | FillForm(initialData: Option<PartialForm>)

  /** The three capture methods the method dialog offers. */
  datatype CaptureMethod = Direct | Voice | Ocr

  /** `onSelectMethod`: typing goes to an empty form, voice and OCR to their flows. */
  function StateForMethod(m: CaptureMethod): (s: PageState)
    ensures m == Direct <==> s == FillForm(None)
    ensures m == Voice <==> s == VoiceFlow
    ensures m == Ocr <==> s == OcrFlow
  {
    match m
    case Direct => FillForm(None)
    case Voice => VoiceFlow
    case Ocr => OcrFlow
  }

  datatype UpdateOutcome = Updated(record: HistoryRecord) | UpdateRejected

  class MedicalHistory {
    var records: seq<HistoryRecord>
    var selected: Option<HistoryRecord>
    var pageState: PageState
    var query: string
    var medModalOpen: bool

    constructor()
      ensures records == [] && selected == None && pageState == ListView && query == "" && !medModalOpen
    {
      records, selected, pageState, query, medModalOpen := [], None, ListView, "", false;
    }

    /** The records shown under the search box. */
    function Shown(): seq<HistoryRecord>
      reads this
    {
      Search(records, query)
    }

    /** `fetchVisits` on mount: the mapped list replaces the records; a failed call leaves them. */
    method Load(reply: ApiReply<seq<VisitResponse>>) returns (loaded: bool)
      modifies this`records
      ensures loaded <==> reply.Ok?
      ensures loaded ==> records == Map(reply.body, MapVisitToRecord)
      ensures !loaded ==> records == old(records)
    {
      loaded := reply.Ok?;
      if loaded {
        records := Map(reply.body, MapVisitToRecord);
      }
    }

    /** `handleSave`: the created visit goes to the front of the list and the page returns to the list; a failure changes nothing. */
    method Save(data: FormData, reply: ApiReply<VisitResponse>) returns (sent: VisitPayload, saved: bool)
      modifies this`records, this`pageState
      ensures sent == ToVisitPayload(data)
      ensures saved <==> reply.Ok?
      ensures saved ==> records == [MapVisitToRecord(reply.body)] + old(records) && pageState == ListView
      ensures !saved ==> records == old(records) && pageState == old(pageState)
    {
      sent := ToVisitPayload(data);
      saved := reply.Ok?;
      if saved {
        records := [MapVisitToRecord(reply.body)] + records;
        pageState := ListView;
      }
    }

    /**
     * `handleUpdate`: the id is read back with `Number`; the server's record
     * replaces every record with its id and becomes the open one; a failure
     * changes nothing and is passed on to the caller.
     */
    method Update(updated: HistoryRecord, reply: ApiReply<VisitResponse>)
      returns (visitId: Option<int>, sent: VisitPayload, outcome: UpdateOutcome)
      modifies this`records, this`selected
      ensures visitId == NumberOf(updated.id) && sent == ToVisitPayload(FormOf(updated))
      ensures outcome.Updated? <==> reply.Ok?
      ensures outcome.Updated? ==>
        (outcome.record == MapVisitToRecord(reply.body)
         && records == ReplaceById(old(records), outcome.record) && selected == Some(outcome.record))
      ensures outcome == UpdateRejected ==> records == old(records) && selected == old(selected)
    {
      visitId := NumberOf(updated.id);
      sent := ToVisitPayload(FormOf(updated));
      if reply.Failed? {
        return visitId, sent, UpdateRejected;
      }
      var mapped := MapVisitToRecord(reply.body);
      records := ReplaceById(records, mapped);
      selected := Some(mapped);
      outcome := Updated(mapped);
    }

    /** `handleDelete`: the id leaves the list only once the server agrees; a failure changes nothing and is passed on. */
    method Delete(id: string, reply: ApiReply<()>) returns (visitId: Option<int>, deleted: bool)
      modifies this`records
      ensures visitId == NumberOf(id)
      ensures deleted <==> reply.Ok?
      ensures deleted ==> records == WithoutId(old(records), id)
      ensures !deleted ==> records == old(records)
    {
      visitId := NumberOf(id);
      deleted := reply.Ok?;
      if deleted {
        records := WithoutId(records, id);
      }
    }

    /** The search box: a blank query shows every record. */
    method SetQuery(q: string)
      modifies this`query
      ensures query == q
      ensures IsBlank(q) ==> Shown() == records
    {
      query := q;
    }

    /** The "add record" button opens the method dialog over the list. */
    method OpenMethodDialog()
      modifies this`pageState
      ensures pageState == SelectMethod
    {
      pageState := SelectMethod;
    }

    /** A click on a card opens its detail. */
    method Select(r: HistoryRecord)
      modifies this`selected
      ensures selected == Some(r)
    {
      selected := Some(r);
    }

    method CloseDetail()
      modifies this`selected
      ensures selected == None
    {
      selected := None;
    }

    /** `onAddPrescription` in the detail, and the prescription dialog's own close. */
    method SetMedModal(open: bool)
      modifies this`medModalOpen
      ensures medModalOpen == open
    {
      medModalOpen := open;
    }

    /** `onAdded` from the prescription dialog: the open record and its list entry gain the prescription name. */
    method AddMedToSelected(medName: string)
      modifies this`records, this`selected
      ensures old(selected).None? ==> records == old(records) && selected == old(selected)
      ensures old(selected).Some? ==>
        records == AppendMed(old(records), old(selected).value.id, medName)
        && selected == Some(old(selected).value.(meds := old(selected).value.meds + [medName]))
    {
      if selected.Some? {
        records := AppendMed(records, selected.value.id, medName);
        selected := Some(selected.value.(meds := selected.value.meds + [medName]));
      }
    }

    /** `onSelectMethod` in the method dialog. */
    method ChooseMethod(m: CaptureMethod)
      modifies this`pageState
      ensures pageState == StateForMethod(m)
    {
      pageState := StateForMethod(m);
    }

    /** `handleFlowComplete`: the voice or OCR result opens the form pre-filled. */
    method FlowComplete(data: PartialForm)
      modifies this`pageState
      ensures pageState == FillForm(Some(data))
    {
      pageState := FillForm(Some(data));
    }

    /** `handleCancel`, and the method dialog's close. */
    method Cancel()
      modifies this`pageState
      ensures pageState == ListView
    {
      pageState := ListView;
    }
  }
}
