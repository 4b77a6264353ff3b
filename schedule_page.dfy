/**
 * The calendar page (`SchedulePage`): the appointments of the chosen day in
 * time order, loading the list from the schedule API, creating from the add
 * dialog, and updating or deleting from the detail dialog.
 */
module SchedulePage {
  import opened Wrappers
  import opened Seqs
  import opened ScheduleStore

  /** `ScheduleResponse`, as the schedule API returns it. */
  datatype ScheduleResponse = ScheduleResponse(id: string, title: string, kind: string, date: string, time: string,
                                               location: string, memo: string, createdAt: string)

  /** `CreateScheduleRequest`, filled in by the add dialog. */
  datatype CreateScheduleRequest = CreateScheduleRequest(title: string, kind: string, date: string, time: string,
                                                         location: string, memo: string)

  /** `UpdateScheduleRequest`, filled in by the detail dialog: only the present keys change. */
  datatype UpdateScheduleRequest = UpdateScheduleRequest(title: Option<string>, date: Option<string>, time: Option<string>,
                                                         location: Option<string>, memo: Option<string>)

  /** `mapScheduleResponseToItem`: an empty location or memo becomes absent; the other fields are copied. */
  function MapScheduleResponse(r: ScheduleResponse): (s: ScheduleItem)
    ensures s.id == r.id && s.title == r.title && s.kind == r.kind && s.date == r.date && s.time == r.time
    ensures s.location.None? <==> r.location == ""
    ensures s.memo.None? <==> r.memo == ""
  {
    ScheduleItem(r.id, r.date, r.time, r.kind, r.title,
                 if r.location != "" then Some(r.location) else None,
                 if r.memo != "" then Some(r.memo) else None)
  }

  /** The row shows "@ location" and the memo exactly when they were sent non-empty; nothing of the text is lost. */
  lemma MappedTextsReadBack(r: ScheduleResponse)
    ensures MapScheduleResponse(r).location.GetOr("") == r.location
    ensures MapScheduleResponse(r).memo.GetOr("") == r.memo
    ensures MapScheduleResponse(r).location != Some("") && MapScheduleResponse(r).memo != Some("")
  {
  }

  /**
   * `a.localeCompare(b) <= 0`, taken as code-point order: the times are
   * `HH:MM` text, made of digits and a colon, where the two orders agree.
   */
  predicate TextLe(a: string, b: string)
    decreases |a|
  {
    a == [] || (b != [] && (a[0] < b[0] || (a[0] == b[0] && TextLe(a[1..], b[1..]))))
  }

  lemma {:induction false} TextLeTotal(a: string, b: string)
    ensures TextLe(a, b) || TextLe(b, a)
    decreases |a|
  {
    if a != [] && b != [] && a[0] == b[0] {
      TextLeTotal(a[1..], b[1..]);
    }
  }

  lemma {:induction false} TextLeTransitive(a: string, b: string, c: string)
    requires TextLe(a, b) && TextLe(b, c)
    ensures TextLe(a, c)
    decreases |a|
  {
    if a != [] && a[0] == b[0] && b[0] == c[0] {
      TextLeTransitive(a[1..], b[1..], c[1..]);
    }
  }

  /** Each item's time is at most the next one's. */
  predicate SortedByTime(s: seq<ScheduleItem>)
  {
    forall i :: 0 <= i < |s| - 1 ==> TextLe(s[i].time, s[i + 1].time)
  }

  /** Inserts `x` before the first item whose time is not earlier, so that equal times keep their order. */
  function InsertByTime(x: ScheduleItem, s: seq<ScheduleItem>): (r: seq<ScheduleItem>)
    ensures multiset(r) == multiset(s) + multiset{x}
    ensures |r| == |s| + 1 && (r[0] == x || (s != [] && r[0] == s[0]))
  {
    if s == [] then [x]
    else if TextLe(x.time, s[0].time) then [x] + s
    else
      assert s == [s[0]] + s[1..];
      [s[0]] + InsertByTime(x, s[1..])
  }

  /** Inserting into a list in time order keeps it in time order. */
  lemma {:induction false} InsertKeepsSorted(x: ScheduleItem, s: seq<ScheduleItem>)
    requires SortedByTime(s)
    ensures SortedByTime(InsertByTime(x, s))
  {
    if s != [] && !TextLe(x.time, s[0].time) {
      TextLeTotal(x.time, s[0].time);
      var rest := InsertByTime(x, s[1..]);
      InsertKeepsSorted(x, s[1..]);
      var r := [s[0]] + rest;
      assert r == InsertByTime(x, s);
      forall i | 0 <= i < |r| - 1 ensures TextLe(r[i].time, r[i + 1].time) {
        if i > 0 {
          assert r[i] == rest[i - 1] && r[i + 1] == rest[i];
        }
      }
    }
  }

  /** `.sort((a, b) => a.time.localeCompare(b.time))`: a stable sort by time. */
  function SortByTime(s: seq<ScheduleItem>): (r: seq<ScheduleItem>)
    ensures SortedByTime(r)
    ensures multiset(r) == multiset(s)
  {
    if s == [] then []
    else
      assert s == [s[0]] + s[1..];
      InsertKeepsSorted(s[0], SortByTime(s[1..]));
      InsertByTime(s[0], SortByTime(s[1..]))
  }

  function AtTime(t: string): ScheduleItem -> bool
  {
    (s: ScheduleItem) => s.time == t
  }

  /** The items of `s` at time `t`, in list order. */
  function AtTimeIn(s: seq<ScheduleItem>, t: string): seq<ScheduleItem>
  {
    if s == [] then [] else (if s[0].time == t then [s[0]] else []) + AtTimeIn(s[1..], t)
  }

  lemma {:induction false} AtTimeInIsFilter(s: seq<ScheduleItem>, t: string)
    ensures AtTimeIn(s, t) == Filter(s, AtTime(t))
  {
    if s != [] {
      AtTimeInIsFilter(s[1..], t);
    }
  }

  /** Insertion never moves an item past one with the same time. */
  lemma {:induction false} InsertStable(x: ScheduleItem, s: seq<ScheduleItem>, t: string)
    ensures AtTimeIn(InsertByTime(x, s), t) == AtTimeIn([x], t) + AtTimeIn(s, t)
  {
    assert AtTimeIn([x], t) == if x.time == t then [x] else [] by {
      assert [x][1..] == [];
    }
    if s == [] {
      assert InsertByTime(x, s) == [x];
    } else if TextLe(x.time, s[0].time) {
      var r := InsertByTime(x, s);
      assert r == [x] + s && r[1..] == s;
    } else {
      TextLeTotal(x.time, x.time);
      var r := InsertByTime(x, s);
      InsertStable(x, s[1..], t);
      assert r[0] == s[0] && r[1..] == InsertByTime(x, s[1..]);
    }
  }

  /** `sort` is stable: the appointments at any one time keep their list order. */
  lemma {:induction false} SortStable(s: seq<ScheduleItem>, t: string)
    ensures Filter(SortByTime(s), AtTime(t)) == Filter(s, AtTime(t))
  {
    SortStableAt(s, t);
    AtTimeInIsFilter(s, t);
    AtTimeInIsFilter(SortByTime(s), t);
  }

  lemma {:induction false} SortStableAt(s: seq<ScheduleItem>, t: string)
    ensures AtTimeIn(SortByTime(s), t) == AtTimeIn(s, t)
  {
    if s != [] {
      SortStableAt(s[1..], t);
      InsertStable(s[0], SortByTime(s[1..]), t);
      assert AtTimeIn([s[0]], t) == if s[0].time == t then [s[0]] else [] by {
        assert [s[0]][1..] == [];
      }
    }
  }


  /** Sorting neither adds nor drops an appointment. */
  lemma SortKeepsMembers(s: seq<ScheduleItem>)
    ensures forall x :: x in SortByTime(s) <==> x in s
  {
    var r := SortByTime(s);
    forall x ensures x in r <==> x in s {
      assert x in r <==> x in multiset(r);
      assert x in s <==> x in multiset(s);
    }
  }

  /** Adjacent order gives order between any two positions. */
  lemma {:induction false} SortedPairwise(s: seq<ScheduleItem>, i: int, j: int)
    requires SortedByTime(s) && 0 <= i <= j < |s|
    ensures TextLe(s[i].time, s[j].time)
    decreases j - i
  {
    if i == j {
      TextLeTotal(s[i].time, s[i].time);
    } else {
      SortedPairwise(s, i + 1, j);
      TextLeTransitive(s[i].time, s[i + 1].time, s[j].time);
    }
  }

  function OnDate(date: string): ScheduleItem -> bool
  {
    (s: ScheduleItem) => s.date == date
  }

  /** `daySchedules`: the appointments dated exactly `date`, in time order. */
  function DaySchedules(schedules: seq<ScheduleItem>, date: string): (r: seq<ScheduleItem>)
    ensures SortedByTime(r)
    ensures multiset(r) == multiset(Filter(schedules, OnDate(date)))
    ensures forall s :: s in r <==> s in schedules && s.date == date
  {
    var day := Filter(schedules, OnDate(date));
    FilterMembers(schedules, OnDate(date));
    SortKeepsMembers(day);
    SortByTime(day)
  }

  /** The day's list holds as many appointments as are dated that day. */
  lemma DayScheduleCount(schedules: seq<ScheduleItem>, date: string)
    ensures |DaySchedules(schedules, date)| == Count(schedules, OnDate(date))
  {
    var r := DaySchedules(schedules, date);
    assert |r| == |multiset(r)| == |multiset(Filter(schedules, OnDate(date)))|;
  }

  /** `schedules.map(s => s.id === mapped.id ? mapped : s)`. */
  function ReplaceSchedule(schedules: seq<ScheduleItem>, mapped: ScheduleItem): (r: seq<ScheduleItem>)
    ensures |r| == |schedules|
    ensures forall i :: 0 <= i < |r| ==> r[i] == if schedules[i].id == mapped.id then mapped else schedules[i]
  {
    MapWhere(schedules, (s: ScheduleItem) => s.id == mapped.id, (s: ScheduleItem) => mapped)
  }

  datatype DetailUpdate = DetailUpdated(item: ScheduleItem) | DetailUpdateRejected

  class Calendar {
    const store: Schedules
    /** `kstYmd(date)` of the calendar's selection (today's date in Seoul at first). */
    var selectedDate: string
    var modalOpen: bool
    /** The add dialog's `editItem`: every assignment sets it to null. */
    var editItem: Option<ScheduleItem>
    var detailItem: Option<ScheduleItem>

    predicate Valid()
      reads this
    {
      editItem.None?
    }

    constructor(schedules: Schedules, today: string)
      ensures Valid()
      ensures store == schedules && selectedDate == today && !modalOpen && detailItem.None?
    {
      store := schedules;
      selectedDate := today;
      modalOpen, editItem, detailItem := false, None, None;
    }

    /** The list under the calendar. */
    function Day(): seq<ScheduleItem>
      reads this, store
    {
      DaySchedules(store.schedules, selectedDate)
    }

    /** Picking a day on the calendar. */
    method SelectDate(date: string)
      modifies this`selectedDate
      ensures selectedDate == date
    {
      selectedDate := date;
    }

    /** `fetchSchedules` on mount: the mapped responses replace the store's list in order; a failure leaves it. */
    method Load(reply: ApiReply<seq<ScheduleResponse>>) returns (loaded: bool)
      modifies store
      ensures loaded <==> reply.Ok?
      ensures loaded ==> store.schedules == Map(reply.body, MapScheduleResponse)
      ensures !loaded ==> store.schedules == old(store.schedules)
    {
      loaded := reply.Ok?;
      if loaded {
        store.SetSchedules(Map(reply.body, MapScheduleResponse));
      }
    }

    /** The "add" button. */
    method OpenAdd()
      modifies this`editItem, this`modalOpen
      ensures Valid() && modalOpen
    {
      editItem := None;
      modalOpen := true;
    }

    /**
     * The add dialog's `onSave`. With `editItem` always null it always
     * creates: the created item is appended and the dialog closes; a failure
     * keeps the list and the dialog.
     */
    method SaveFromDialog(payload: CreateScheduleRequest, reply: ApiReply<ScheduleResponse>) returns (created: bool)
      requires Valid()
      modifies store, this`modalOpen
      ensures created <==> reply.Ok?
      ensures created ==> store.schedules == old(store.schedules) + [MapScheduleResponse(reply.body)] && !modalOpen
      ensures !created ==> store.schedules == old(store.schedules) && modalOpen == old(modalOpen)
    {
      created := reply.Ok?;
      if created {
        store.SetSchedules(store.schedules + [MapScheduleResponse(reply.body)]);
        modalOpen := false;
      }
    }

    /** The add dialog's `onClose`. */
    method CloseAdd()
      modifies this`modalOpen
      ensures !modalOpen
    {
      modalOpen := false;
    }

    /** The detail dialog's `onClose`. */
    method CloseDetail()
      modifies this`detailItem
      ensures detailItem.None?
    {
      detailItem := None;
    }

    method OpenDetail(item: ScheduleItem)
      modifies this`detailItem
      ensures detailItem == Some(item)
    {
      detailItem := Some(item);
    }

    /**
     * The detail dialog's `onUpdate`: the server's item replaces every item
     * with its id and becomes the one shown; a failure changes nothing and is
     * passed on.
     */
    method UpdateFromDetail(id: string, patch: UpdateScheduleRequest, reply: ApiReply<ScheduleResponse>)
      returns (outcome: DetailUpdate)
      modifies store, this`detailItem
      ensures outcome.DetailUpdated? <==> reply.Ok?
      ensures outcome.DetailUpdated? ==>
        (outcome.item == MapScheduleResponse(reply.body)
         && store.schedules == ReplaceSchedule(old(store.schedules), outcome.item) && detailItem == Some(outcome.item))
      ensures outcome == DetailUpdateRejected ==> store.schedules == old(store.schedules) && detailItem == old(detailItem)
    {
      if reply.Failed? {
        return DetailUpdateRejected;
      }
      var mapped := MapScheduleResponse(reply.body);
      store.SetSchedules(ReplaceSchedule(store.schedules, mapped));
      detailItem := Some(mapped);
      outcome := DetailUpdated(mapped);
    }

    /** The detail dialog's `onDelete`: the id leaves the list only after the server agrees; a failure changes nothing. */
    method DeleteFromDetail(id: string, reply: ApiReply<()>) returns (deleted: bool)
      modifies store
      ensures deleted <==> reply.Ok?
      ensures deleted ==> store.schedules == DeleteSchedule(old(store.schedules), id)
      ensures !deleted ==> store.schedules == old(store.schedules)
    {
      deleted := reply.Ok?;
      if deleted {
        store.SetSchedules(DeleteSchedule(store.schedules, id));
      }
    }
  }
}
