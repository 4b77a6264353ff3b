/** The appointment store (`useScheduleStore`): a list of schedule items with add, merge-update and delete by id. */
module ScheduleStore {
  import opened Wrappers
  import opened Seqs
  import JsString

  /**
   * One appointment. `kind` is 진료 or 검사 in the declared type, but the
   * pages cast whatever the backend sends into it, so it is kept as text.
   */
  datatype ScheduleItem = ScheduleItem(id: string, date: string, time: string, kind: string, title: string,
                                       location: Option<string>, memo: Option<string>)

  /** A `Partial<Omit<ScheduleItem, "id">>`: a field is replaced only when the key is present with a value. */
  datatype SchedulePatch = SchedulePatch(date: Option<string>, time: Option<string>, kind: Option<string>,
                                         title: Option<string>, location: Option<string>, memo: Option<string>)

  function ScheduleId(now: int): (id: string)
    ensures |id| >= 3 && id[..2] == "s_" && id[2..] == JsString.DecimalString(now)
  {
    "s_" + JsString.DecimalString(now)
  }

  function PatchSchedule(s: ScheduleItem, p: SchedulePatch): (r: ScheduleItem)
    ensures r.id == s.id
    ensures r.date == p.date.GetOr(s.date) && r.time == p.time.GetOr(s.time)
    ensures r.kind == p.kind.GetOr(s.kind) && r.title == p.title.GetOr(s.title)
    ensures r.location == (if p.location.Some? then p.location else s.location)
    ensures r.memo == (if p.memo.Some? then p.memo else s.memo)
  {
    ScheduleItem(s.id, p.date.GetOr(s.date), p.time.GetOr(s.time), p.kind.GetOr(s.kind), p.title.GetOr(s.title),
                 if p.location.Some? then p.location else s.location,
                 if p.memo.Some? then p.memo else s.memo)
  }

  /** `addSchedule`: appended at the end under a time-stamped id. */
  function AddSchedule(schedules: seq<ScheduleItem>, date: string, time: string, kind: string, title: string,
                       location: Option<string>, memo: Option<string>, now: int): (r: seq<ScheduleItem>)
    ensures |r| == |schedules| + 1 && r[..|schedules|] == schedules
    ensures r[|schedules|] == ScheduleItem(ScheduleId(now), date, time, kind, title, location, memo)
  {
    schedules + [ScheduleItem(ScheduleId(now), date, time, kind, title, location, memo)]
  }

  /** `updateSchedule`: entries with the id get the patch and keep their id; all others are untouched. */
  function UpdateSchedule(schedules: seq<ScheduleItem>, id: string, patch: SchedulePatch): (r: seq<ScheduleItem>)
    ensures |r| == |schedules|
    ensures forall i :: 0 <= i < |r| ==> r[i].id == schedules[i].id
    ensures forall i :: 0 <= i < |r| ==> r[i] == if schedules[i].id == id then PatchSchedule(schedules[i], patch) else schedules[i]
  {
    MapWhere(schedules, (s: ScheduleItem) => s.id == id, (s: ScheduleItem) => PatchSchedule(s, patch))
  }

  function OtherThanSchedule(id: string): ScheduleItem -> bool
  {
    (s: ScheduleItem) => s.id != id
  }

  /** `deleteSchedule`: entries with the id are gone, all others are kept in their original order. */
  function DeleteSchedule(schedules: seq<ScheduleItem>, id: string): (r: seq<ScheduleItem>)
    ensures forall i :: 0 <= i < |r| ==> r[i].id != id && r[i] in schedules
    ensures forall i :: 0 <= i < |schedules| && schedules[i].id != id ==> schedules[i] in r
    ensures |r| == |schedules| - Count(schedules, (s: ScheduleItem) => s.id == id)
    ensures IsSubsequence(r, schedules)
  {
    var keep := OtherThanSchedule(id);
    var r := Filter(schedules, keep);
    FilterInOrder(schedules, keep);
    assert |r| == |schedules| - Count(schedules, (s: ScheduleItem) => s.id == id) by {
      CountComplement(schedules, (s: ScheduleItem) => s.id == id, keep);
    }
    r
  }

  /** Deleting the same id twice is deleting it once. */
  lemma DeleteScheduleTwice(schedules: seq<ScheduleItem>, id: string)
    ensures DeleteSchedule(DeleteSchedule(schedules, id), id) == DeleteSchedule(schedules, id)
  {
    FilterIdempotent(schedules, OtherThanSchedule(id));
  }

  /** Deleting the item just added, under an id nobody held before, undoes the add. */
  lemma DeleteUndoesAddSchedule(schedules: seq<ScheduleItem>, date: string, time: string, kind: string, title: string,
                                location: Option<string>, memo: Option<string>, now: int)
    requires forall i :: 0 <= i < |schedules| ==> schedules[i].id != ScheduleId(now)
    ensures DeleteSchedule(AddSchedule(schedules, date, time, kind, title, location, memo, now), ScheduleId(now)) == schedules
  {
    var id := ScheduleId(now);
    FilterDropsAppended(schedules, ScheduleItem(id, date, time, kind, title, location, memo), OtherThanSchedule(id));
  }

  /** An update whose id matches nothing leaves the list as it was. */
  lemma UpdateMissingIdIsNoOp(schedules: seq<ScheduleItem>, id: string, patch: SchedulePatch)
    requires forall i :: 0 <= i < |schedules| ==> schedules[i].id != id
    ensures UpdateSchedule(schedules, id, patch) == schedules
  {
  }

  class Schedules {
    var schedules: seq<ScheduleItem>

    constructor()
      ensures schedules == []
    {
      schedules := [];
    }

    method AddScheduleAt(date: string, time: string, kind: string, title: string,
                         location: Option<string>, memo: Option<string>, now: int)
      modifies this
      ensures schedules == AddSchedule(old(schedules), date, time, kind, title, location, memo, now)
    {
      schedules := schedules + [ScheduleItem(ScheduleId(now), date, time, kind, title, location, memo)];
    }

    method UpdateScheduleById(id: string, patch: SchedulePatch)
      modifies this
      ensures schedules == UpdateSchedule(old(schedules), id, patch)
    {
      schedules := UpdateSchedule(schedules, id, patch);
    }

    method DeleteScheduleById(id: string)
      modifies this
      ensures schedules == DeleteSchedule(old(schedules), id)
    {
      var kept := DeleteSchedule(schedules, id);
      schedules := kept;
    }

    /** Replaces the whole list, as the schedule page does through `setState`. */
    method SetSchedules(list: seq<ScheduleItem>)
      modifies this
      ensures schedules == list
    {
      schedules := list;
    }
  }
}
