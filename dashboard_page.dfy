/**
 * The member's home page (`DashboardPage`): a two-slide header that rotates on
 * a timer, today's appointments, and today's medication checklist with its
 * checked count.
 */
module DashboardPage {
  import opened Wrappers
  import opened Seqs
  import opened ScheduleStore
  import opened HealthDataStore
  import SchedulePage

  const TotalSlides: nat := 2
  const ShownSchedules: nat := 3

  /** `todays`: the appointments dated today, in time order (the calendar page's day list for today). */
  function Todays(schedules: seq<ScheduleItem>, today: string): (r: seq<ScheduleItem>)
    ensures SchedulePage.SortedByTime(r)
    ensures forall s :: s in r <==> s in schedules && s.date == today
    ensures multiset(r) == multiset(Filter(schedules, SchedulePage.OnDate(today)))
    ensures |r| == Count(schedules, SchedulePage.OnDate(today))
  {
    SchedulePage.DayScheduleCount(schedules, today);
    SchedulePage.DaySchedules(schedules, today)
  }

  /** The first three of today's appointments, and the "+ n more" figure when there are more than three. */
  function ScheduleCard(todays: seq<ScheduleItem>): (card: (seq<ScheduleItem>, Option<nat>))
    ensures |card.0| <= ShownSchedules && card.0 <= todays
    ensures card.1.Some? <==> |todays| > ShownSchedules
    ensures |card.0| + card.1.GetOr(0) == |todays|
  {
    (Take(todays, ShownSchedules), if |todays| > ShownSchedules then Some(|todays| - ShownSchedules) else None)
  }

  predicate IsDigitChar(c: char)
  {
    '0' <= c <= '9'
  }

  /** The number written by two decimal digits. */
  function TwoDigits(tens: char, ones: char): int
  {
    (tens as int - '0' as int) * 10 + (ones as int - '0' as int)
  }

  /**
   * A `YYYY-MM-DD` text with a month from 01 to 12 and a day from 01 to 31,
   * the only form of date the page's data carries.
   */
  predicate IsIsoDate(s: string)
  {
    |s| == 10 && s[4] == '-' && s[7] == '-'
    && (forall i :: 0 <= i < 10 && i != 4 && i != 7 ==> IsDigitChar(s[i]))
    && 1 <= TwoDigits(s[5], s[6]) <= 12
    && 1 <= TwoDigits(s[8], s[9]) <= 31
  }

  /** A month past December or a day numbered zero is not a date. */
  lemma NotADate()
    ensures !IsIsoDate("2025-13-01") && !IsIsoDate("2025-01-00")
    ensures IsIsoDate("2025-12-31")
  {
    assert "2025-12-31"[5] == '1' && "2025-12-31"[6] == '2';
  }

  /**
   * `new Date(a) <= new Date(b)` for two dates: an invalid date compares
   * false; for `YYYY-MM-DD` texts the order of the instants is the order of
   * the texts.
   */
  predicate DateLe(a: string, b: string)
  {
    IsIsoDate(a) && IsIsoDate(b) && SchedulePage.TextLe(a, b)
  }

  /** One entry of `todaysMeds`: both dates given and today within them, both ends included. */
  predicate TakenToday(m: Medication, today: string)
  {
    m.startDate != "" && m.endDate != "" && DateLe(m.startDate, today) && DateLe(today, m.endDate)
  }

  function TakenOn(today: string): Medication -> bool
  {
    (m: Medication) => TakenToday(m, today)
  }

  /** `todaysMeds`: the medications whose period covers today, in list order. */
  function TodaysMeds(medications: seq<Medication>, today: string): (r: seq<Medication>)
    ensures forall m :: m in r <==> m in medications && TakenToday(m, today)
    ensures IsSubsequence(r, medications) && |r| == Count(medications, TakenOn(today))
  {
    var keep := TakenOn(today);
    FilterMembers(medications, keep);
    FilterInOrder(medications, keep);
    Filter(medications, keep)
  }

  /** A one-day course is taken exactly on its day. */
  lemma OneDayCourse(m: Medication, today: string)
    requires IsIsoDate(today) && m.startDate == m.endDate
    ensures TakenToday(m, today) <==> m.startDate == today
  {
    if m.startDate == today {
      SchedulePage.TextLeTotal(today, today);
    }
    if TakenToday(m, today) {
      TextLeAntisymmetric(m.startDate, today);
    }
  }

  lemma {:induction false} TextLeAntisymmetric(a: string, b: string)
    requires SchedulePage.TextLe(a, b) && SchedulePage.TextLe(b, a)
    ensures a == b
    decreases |a|
  {
    if a != [] {
      TextLeAntisymmetric(a[1..], b[1..]);
      assert a == [a[0]] + a[1..] && b == [b[0]] + b[1..];
    }
  }

  /** `Object.values(medCheckState).filter(Boolean).length`: the ids whose flag is set. */
  function Checked(checks: map<string, bool>): set<string>
  {
    set id | id in checks && checks[id]
  }

  /** `{ ...p, [id]: !p[id] }`: a missing flag reads as unchecked. */
  function Flip(checks: map<string, bool>, id: string): (r: map<string, bool>)
    ensures id in r && r[id] == !(id in checks && checks[id])
    ensures forall other :: other != id ==> (other in r <==> other in checks) && (other in checks ==> r[other] == checks[other])
  {
    checks[id := !(id in checks && checks[id])]
  }

  /** Flipping an id moves exactly that id into or out of the checked set, so the count moves by one. */
  lemma FlipMovesOne(checks: map<string, bool>, id: string)
    ensures id in Checked(checks) ==> Checked(Flip(checks, id)) == Checked(checks) - {id}
    ensures id !in Checked(checks) ==> Checked(Flip(checks, id)) == Checked(checks) + {id}
    ensures |Checked(Flip(checks, id))| == if id in Checked(checks) then |Checked(checks)| - 1 else |Checked(checks)| + 1
  {
    var before := Checked(checks);
    var after := Checked(Flip(checks, id));
    if id in before {
      assert after == before - {id};
    } else {
      assert after == before + {id};
    }
  }

  /** Flipping twice restores the flag's reading. */
  lemma FlipTwice(checks: map<string, bool>, id: string)
    ensures Checked(Flip(Flip(checks, id), id)) == Checked(checks)
  {
    FlipMovesOne(checks, id);
    FlipMovesOne(Flip(checks, id), id);
  }

  /** The interval step `(prev + 1) % TOTAL_SLIDES`. */
  function NextSlide(i: int): (j: int)
    ensures 0 <= j < TotalSlides
    ensures 0 <= i < TotalSlides ==> j != i
  {
    (i + 1) % TotalSlides
  }

  class Dashboard {
    const scheduleStore: Schedules
    const healthStore: HealthData
    /** `kstYmd()`: today's date in Seoul, from the clock. */
    const today: string
    var currentSlide: int
    var medCheckState: map<string, bool>

    predicate Valid()
      reads this
    {
      0 <= currentSlide < TotalSlides
    }

    constructor(schedules: Schedules, health: HealthData, todayInSeoul: string)
      ensures Valid()
      ensures scheduleStore == schedules && healthStore == health && today == todayInSeoul
      ensures currentSlide == 0 && medCheckState == map[]
    {
      scheduleStore, healthStore, today := schedules, health, todayInSeoul;
      currentSlide, medCheckState := 0, map[];
    }

    /** The checklist's "checked / total" figures: the ids whose flag is set, and the medications taken today. */
    function Progress(): (figures: (nat, nat))
      reads this, healthStore
      ensures figures.0 == |Checked(medCheckState)|
      ensures figures.1 == |TodaysMeds(healthStore.medications, today)|
    {
      (|Checked(medCheckState)|, |TodaysMeds(healthStore.medications, today)|)
    }

    /** `handleMedCheck`: only that id's flag flips. */
    method MedCheck(id: string)
      modifies this`medCheckState
      ensures medCheckState == Flip(old(medCheckState), id)
      ensures |Checked(medCheckState)| == if id in Checked(old(medCheckState)) then |Checked(old(medCheckState))| - 1 else |Checked(old(medCheckState))| + 1
    {
      FlipMovesOne(medCheckState, id);
      medCheckState := Flip(medCheckState, id);
    }

    /** One tick of the seven-second interval. */
    method Tick()
      requires Valid()
      modifies this`currentSlide
      ensures Valid() && currentSlide == NextSlide(old(currentSlide)) && currentSlide != old(currentSlide)
    {
      currentSlide := NextSlide(currentSlide);
    }

    /** A click on one of the two dots under the header. */
    method ShowSlide(i: int)
      requires 0 <= i < TotalSlides
      modifies this`currentSlide
      ensures Valid() && currentSlide == i
    {
      currentSlide := i;
    }
  }
}
