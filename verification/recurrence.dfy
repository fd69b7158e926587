/** Meeting recurrence: the bounded scan for candidate dates, the overrides, and the proof that
    it returns exactly what an unbounded definition of the schedule asks for. */
module Recurrence {
  import opened ContentModel
  import opened Sorting

  /** Calendar days and instants are integers; instants count nanoseconds. */
  type Day = int
  type Instant = int

  /** Minutes after midnight, as a clock time that parses is. */
  type Clock = m: nat | m < 1440

  const MINUTE: int := 60_000_000_000
  const LONGEST: int := 1440 * MINUTE

  /** A time zone: when a local day's minute falls, and which local day an instant is in. */
  datatype Zone = Zone(at: (Day, Clock) -> Instant, dayOf: Instant -> Day)

  function Midnight(zone: Zone, d: Day): Instant {
    zone.at(d, 0)
  }

  /** What is assumed of a zone: its days follow each other, the times of a day fall within it,
      and every instant has its day. A day may be shorter or longer than 24 hours. */
  ghost predicate Ordered(zone: Zone) {
    && (forall d :: DaysFollow(zone, d))
    && (forall d: Day, m: Clock :: ClockFallsOn(zone, d, m))
    && (forall t :: HasItsDay(zone, t))
  }

  /** No day is shorter than 24 hours, as in zones with a fixed offset. */
  ghost predicate Regular(zone: Zone) {
    Ordered(zone) && forall d :: LastsADay(zone, d)
  }

  predicate DaysFollow(zone: Zone, d: Day) {
    Midnight(zone, d) < Midnight(zone, d + 1)
  }

  predicate ClockFallsOn(zone: Zone, d: Day, m: Clock) {
    FallsOn(zone, d, zone.at(d, m))
  }

  predicate HasItsDay(zone: Zone, t: Instant) {
    FallsOn(zone, zone.dayOf(t), t)
  }

  predicate LastsADay(zone: Zone, d: Day) {
    Midnight(zone, d) + LONGEST <= Midnight(zone, d + 1)
  }

  predicate FallsOn(zone: Zone, d: Day, t: Instant) {
    Midnight(zone, d) <= t < Midnight(zone, d + 1)
  }

  /** Day 0 is 1 January 1970, a Thursday; Sunday is 0. */
  function Weekday(d: Day): int {
    (d + 4) % 7
  }

  /** `None` for the zero time, and for a clock time that does not parse. */
  datatype Schedule =
    | Once(startsAt: Option<Instant>)
    | Weekly(days: seq<int>, clock: Option<Clock>)
    | Unsupported

  /** `id` gives the name-based UUID of the occurrence on a day, as a number that orders like it. */
  datatype Meeting = Meeting(zone: Zone, schedule: Schedule, duration: int, venue: string, version: nat, id: Day -> int)

  /** `date` is `None` when it does not parse. */
  datatype Override = Override(
    date: Option<Day>,
    cancelled: bool,
    startsAt: Option<Instant>,
    duration: Option<int>,
    venue: Option<string>,
    version: nat)

  datatype Occurrence = Occurrence(
    date: Day,
    id: int,
    startsAt: Instant,
    endsAt: Instant,
    cancelled: bool,
    venue: string,
    version: nat)

  // ---------------------------------------------------------------- the unbounded definition

  /** The days the schedule names, over all of time. */
  predicate Scheduled(meeting: Meeting, d: Day) {
    match meeting.schedule
    case Once(startsAt) => startsAt.Some? && d == meeting.zone.dayOf(startsAt.value)
    case Weekly(days, clock) => clock.Some? && Weekday(d) in days
    case Unsupported => false
  }

  function OverrideOn(overrides: map<Day, Override>, d: Day): Option<Override> {
    if d in overrides then Some(overrides[d]) else None
  }

  function ScheduledStart(meeting: Meeting, d: Day): Instant {
    match meeting.schedule
    case Once(startsAt) => if startsAt.Some? then startsAt.value else 0
    case Weekly(_, clock) => meeting.zone.at(d, if clock.Some? then clock.value else 0)
    case Unsupported => 0
  }

  function Or<T>(option: Option<T>, other: T): T {
    if option.Some? then option.value else other
  }

  function DurationOn(meeting: Meeting, override: Option<Override>): int {
    if override.Some? then Or(override.value.duration, meeting.duration) else meeting.duration
  }

  function StartOn(meeting: Meeting, override: Option<Override>, d: Day): Instant {
    if override.Some? then Or(override.value.startsAt, ScheduledStart(meeting, d)) else ScheduledStart(meeting, d)
  }

  function Max(a: nat, b: nat): nat {
    if a < b then b else a
  }

  /** The occurrence on a scheduled day, its override applied. */
  function OccurrenceOn(meeting: Meeting, overrides: map<Day, Override>, d: Day): Occurrence {
    var override := OverrideOn(overrides, d);
    var startsAt := StartOn(meeting, override, d);
    Occurrence(
      d,
      meeting.id(d),
      startsAt,
      startsAt + DurationOn(meeting, override) * MINUTE,
      override.Some? && override.value.cancelled,
      if override.Some? then Or(override.value.venue, meeting.venue) else meeting.venue,
      if override.Some? then Max(meeting.version, override.value.version) else meeting.version)
  }

  predicate Overlaps(o: Occurrence, from: Instant, to: Instant) {
    o.startsAt < to && from < o.endsAt
  }

  predicate Before(a: Occurrence, b: Occurrence) {
    a.startsAt < b.startsAt || (a.startsAt == b.startsAt && a.id < b.id)
  }

  predicate Ascending(s: seq<Occurrence>) {
    forall i, j | 0 <= i < j < |s| :: Before(s[i], s[j])
  }

  /** The answer the schedule asks for, over all days: every overlapping occurrence, each once,
      by start and then id. */
  ghost predicate Answers(meeting: Meeting, overrides: map<Day, Override>, from: Instant, to: Instant, result: seq<Occurrence>) {
    && Ascending(result)
    && forall o :: o in result <==>
         Scheduled(meeting, o.date) && o == OccurrenceOn(meeting, overrides, o.date) && Overlaps(o, from, to)
  }

  /** There is at most one such answer. */
  lemma AnswerIsUnique(meeting: Meeting, overrides: map<Day, Override>, from: Instant, to: Instant, a: seq<Occurrence>, b: seq<Occurrence>)
    requires Answers(meeting, overrides, from, to, a) && Answers(meeting, overrides, from, to, b)
    ensures a == b
  {
    SameElementsSameOrder(a, b);
  }

  lemma {:induction false} SameElementsSameOrder(a: seq<Occurrence>, b: seq<Occurrence>)
    requires Ascending(a) && Ascending(b) && forall o :: o in a <==> o in b
    ensures a == b
    decreases |a|
  {
    EmptyTogether(a, b);
    if a != [] {
      assert a[0] in b && b[0] in a;
      assert a[0] == b[0];
      forall o ensures o in a[1..] <==> o in b[1..] {
        AfterFirst(a, o);
        AfterFirst(b, o);
      }
      SameElementsSameOrder(a[1..], b[1..]);
    }
  }

  lemma EmptyTogether(a: seq<Occurrence>, b: seq<Occurrence>)
    requires forall o :: o in a <==> o in b
    ensures a == [] <==> b == []
  {
    if a != [] { assert a[0] in b; }
    if b != [] { assert b[0] in a; }
  }

  lemma AfterFirst(a: seq<Occurrence>, o: Occurrence)
    requires Ascending(a) && a != []
    ensures o in a[1..] <==> o in a && o != a[0]
  {
    if o in a[1..] {
      var i :| 0 <= i < |a[1..]| && a[1..][i] == o;
      assert a[i + 1] == o && Before(a[0], o);
    }
  }

  // ---------------------------------------------------------------- the scan

  /** The days the scan looks at: from the day before `from` to the day of `to`, and the days
      with an override. */
  predicate Scanned(meeting: Meeting, overrides: map<Day, Override>, from: Instant, to: Instant, d: Day) {
    (meeting.zone.dayOf(from) - 1 <= d && Midnight(meeting.zone, d) <= to) || d in overrides
  }

  predicate Candidate(meeting: Meeting, overrides: map<Day, Override>, from: Instant, to: Instant, d: Day) {
    Scheduled(meeting, d) && (meeting.schedule.Weekly? ==> Scanned(meeting, overrides, from, to, d))
  }

  /** No scheduled occurrence that overlaps the range is on a day the scan does not look at. */
  ghost predicate NoneEscapes(meeting: Meeting, overrides: map<Day, Override>, from: Instant, to: Instant) {
    forall d | Scheduled(meeting, d) && Overlaps(OccurrenceOn(meeting, overrides, d), from, to) ::
      Candidate(meeting, overrides, from, to, d)
  }

  predicate EndsByNextNight(meeting: Meeting, d: Day) {
    ScheduledStart(meeting, d) + meeting.duration * MINUTE <= Midnight(meeting.zone, d + 2)
  }

  /** Every occurrence without an override ends by the second midnight after its start. */
  ghost predicate LookbackSuffices(meeting: Meeting, overrides: map<Day, Override>) {
    forall d | Scheduled(meeting, d) && d !in overrides :: EndsByNextNight(meeting, d)
  }

  /** Looking one day back is enough exactly for the meetings whose occurrences end by the
      second midnight after they start. */
  lemma LookbackSufficesExactly(meeting: Meeting, overrides: map<Day, Override>)
    requires Ordered(meeting.zone) && meeting.schedule.Weekly? && meeting.schedule.clock.Some?
    ensures (forall from, to :: NoneEscapes(meeting, overrides, from, to)) <==> LookbackSuffices(meeting, overrides)
  {
    if LookbackSuffices(meeting, overrides) {
      forall from, to ensures NoneEscapes(meeting, overrides, from, to) { ScanIsComplete(meeting, overrides, from, to); }
    }
    if forall from, to :: NoneEscapes(meeting, overrides, from, to) {
      forall d | Scheduled(meeting, d) && d !in overrides ensures EndsByNextNight(meeting, d) {
        var from := Midnight(meeting.zone, d + 2);
        assert NoneEscapes(meeting, overrides, from, from + 1);
        if !EndsByNextNight(meeting, d) { LateEndEscapes(meeting, overrides, d); }
      }
    }
  }

  /** An occurrence that still runs at the second midnight is missed by a scan from there. */
  lemma LateEndEscapes(meeting: Meeting, overrides: map<Day, Override>, d: Day)
    requires Ordered(meeting.zone) && meeting.schedule.Weekly?
    requires Scheduled(meeting, d) && d !in overrides && !EndsByNextNight(meeting, d)
    ensures var from := Midnight(meeting.zone, d + 2); !NoneEscapes(meeting, overrides, from, from + 1)
  {
    var from := Midnight(meeting.zone, d + 2);
    assert ClockFallsOn(meeting.zone, d, meeting.schedule.clock.value);
    assert DaysFollow(meeting.zone, d + 1) && DaysFollow(meeting.zone, d + 2);
    DayIsUnique(meeting.zone, from, d + 2);
    assert Overlaps(OccurrenceOn(meeting, overrides, d), from, from + 1);
    assert !Candidate(meeting, overrides, from, from + 1, d);
  }

  lemma DayIsUnique(zone: Zone, t: Instant, d: Day)
    requires Ordered(zone) && FallsOn(zone, d, t)
    ensures zone.dayOf(t) == d
  {
    var today := zone.dayOf(t);
    assert HasItsDay(zone, t);
    if today < d { DaysAscend(zone, today + 1, d); }
    if d < today { DaysAscend(zone, d + 1, today); }
  }

  /** For such meetings, and for single ones, the scan misses nothing in any range. */
  lemma ScanIsComplete(meeting: Meeting, overrides: map<Day, Override>, from: Instant, to: Instant)
    requires Ordered(meeting.zone) && (meeting.schedule.Weekly? ==> LookbackSuffices(meeting, overrides))
    ensures NoneEscapes(meeting, overrides, from, to)
  {
    forall d | Scheduled(meeting, d) && Overlaps(OccurrenceOn(meeting, overrides, d), from, to)
      ensures Candidate(meeting, overrides, from, to, d)
    {
      if meeting.schedule.Weekly? && d !in overrides {
        assert ClockFallsOn(meeting.zone, d, meeting.schedule.clock.value);
        assert EndsByNextNight(meeting, d);
        OneDayBack(meeting.zone, d, from);
      }
    }
  }

  lemma OneDayBack(zone: Zone, d: Day, from: Instant)
    requires Ordered(zone) && from < Midnight(zone, d + 2)
    ensures zone.dayOf(from) - 1 <= d
  {
    var today := zone.dayOf(from);
    assert HasItsDay(zone, from);
    if d + 1 < today { DaysAscend(zone, d + 2, today); }
  }

  /** Where no day is shorter than 24 hours, the condition holds of every valid duration. */
  lemma RegularZonesSuffice(meeting: Meeting, overrides: map<Day, Override>)
    requires Regular(meeting.zone) && meeting.schedule.Weekly? && ValidDuration(meeting.duration)
    ensures LookbackSuffices(meeting, overrides)
  {
    forall d | Scheduled(meeting, d) && d !in overrides ensures EndsByNextNight(meeting, d) {
      WithinADay(meeting.duration);
      assert ClockFallsOn(meeting.zone, d, meeting.schedule.clock.value);
      assert LastsADay(meeting.zone, d + 1);
    }
  }

  lemma WithinADay(minutes: int)
    requires 1 <= minutes <= 1440
    ensures 0 < minutes * MINUTE <= LONGEST
  {
  }

  lemma {:induction false} DaysAscend(zone: Zone, a: Day, b: Day)
    requires Ordered(zone) && a <= b
    ensures Midnight(zone, a) + b - a <= Midnight(zone, b)
    decreases b - a
  {
    if a < b {
      DaysAscend(zone, a, b - 1);
      assert DaysFollow(zone, b - 1);
    }
  }

  /** A zone in which day 1 lasts only 23 hours: at 2 o'clock the clock has moved on. */
  function SpringZone(): Zone {
    Zone((d: Day, m: Clock) => (d * 1440 + m - (if d >= 2 || (d == 1 && m >= 120) then 60 else 0)) * MINUTE,
         (t: Instant) => (if t < 2820 * MINUTE then t else t + 60 * MINUTE) / LONGEST)
  }

  lemma SpringZoneIsOrdered()
    ensures Ordered(SpringZone())
  {
  }

  /** The condition does fail: across the short day, a meeting of 24 hours that starts late on
      day 0 still runs when day 2 begins, but the scan starts at day 1. */
  lemma ShortDaysEscape(meeting: Meeting)
    requires meeting.zone == SpringZone() && meeting.duration == 1440
    requires meeting.schedule == Weekly([Weekday(0)], Some(1439))
    ensures var from := Midnight(meeting.zone, 2);
      && Ordered(meeting.zone) && !LookbackSuffices(meeting, map[])
      && Scheduled(meeting, 0) && Overlaps(OccurrenceOn(meeting, map[], 0), from, from + 1)
      && !Candidate(meeting, map[], from, from + 1, 0)
  {
    SpringZoneIsOrdered();
    var from := Midnight(meeting.zone, 2);
    assert from == 2820 * MINUTE;
    assert meeting.zone.dayOf(from) == 2;
    assert ScheduledStart(meeting, 0) == 1439 * MINUTE;
    assert !EndsByNextNight(meeting, 0);
  }

  // ---------------------------------------------------------------- ResolveOccurrences

  predicate ValidSchedule(schedule: Schedule) {
    match schedule
    case Once(startsAt) => startsAt.Some?
    case Weekly(days, clock) => clock.Some? && days != [] && forall i | 0 <= i < |days| :: 0 <= days[i] <= 6
    case Unsupported => false
  }

  /** Every override has a date, and no two the same. */
  predicate ValidOverrides(overrides: seq<Override>) {
    && (forall i | 0 <= i < |overrides| :: overrides[i].date.Some?)
    && forall i, j | 0 <= i < j < |overrides| :: overrides[i].date != overrides[j].date
  }

  /** The overrides by date. */
  function Index(overrides: seq<Override>): map<Day, Override> {
    if overrides == [] then map[]
    else
      var last := overrides[|overrides| - 1];
      var rest := Index(overrides[..|overrides| - 1]);
      if last.date.None? then rest else rest[last.date.value := last]
  }

  ghost predicate IndexedBy(overrides: seq<Override>, index: map<Day, Override>) {
    && (forall o | o in overrides :: o.date.Some? && o.date.value in index && index[o.date.value] == o)
    && forall d | d in index :: index[d] in overrides && index[d].date == Some(d)
  }

  lemma {:induction false} IndexLooksUp(overrides: seq<Override>)
    requires ValidOverrides(overrides)
    ensures IndexedBy(overrides, Index(overrides))
  {
    if overrides != [] {
      var n := |overrides| - 1;
      var rest := overrides[..n];
      IndexLooksUp(rest);
      assert overrides == rest + [overrides[n]];
      forall o | o in rest ensures o.date != overrides[n].date {
        var i :| 0 <= i < n && rest[i] == o;
        assert overrides[i] == o;
      }
    }
  }

  /** Whatever order the overrides come in, they index alike, so the answer is the same. */
  lemma OverrideOrderIsIrrelevant(a: seq<Override>, b: seq<Override>)
    requires multiset(a) == multiset(b) && ValidOverrides(a) && ValidOverrides(b)
    ensures Index(a) == Index(b)
  {
    IndexLooksUp(a);
    IndexLooksUp(b);
    forall o: Override ensures o in a <==> o in b {
      assert o in multiset(a) <==> o in multiset(b);
    }
    forall d | d in Index(a) ensures d in Index(b) && Index(b)[d] == Index(a)[d] { assert Index(a)[d] in b; }
    forall d | d in Index(b) ensures d in Index(a) { assert Index(b)[d] in a; }
  }

  predicate ValidDuration(minutes: int) {
    1 <= minutes <= 1440
  }

  ghost predicate ValidDurations(meeting: Meeting, overrides: map<Day, Override>, from: Instant, to: Instant) {
    forall d | Candidate(meeting, overrides, from, to, d) :: ValidDuration(DurationOn(meeting, OverrideOn(overrides, d)))
  }

  lemma OneMoreOverride(overrides: seq<Override>, i: nat)
    requires i < |overrides| && ValidOverrides(overrides[..i])
    ensures var date, index := overrides[i].date, Index(overrides[..i]);
      && (ValidOverrides(overrides[..i + 1]) <==> date.Some? && date.value !in index)
      && (date.Some? ==> Index(overrides[..i + 1]) == index[date.value := overrides[i]])
    ensures ValidOverrides(overrides) ==> ValidOverrides(overrides[..i + 1])
  {
    hide Index;
    IndexLooksUp(overrides[..i]);
    IndexUnfolds(overrides, i);
    var date, index := overrides[i].date, Index(overrides[..i]);
    if date.Some? && date.value in index {
      var d := date.value;
      assert index[d] in overrides[..i] && index[d].date == Some(d);
      var k :| 0 <= k < |overrides[..i]| && overrides[..i][k] == index[d];
      assert overrides[..i + 1][k].date == overrides[..i + 1][i].date;
    }
    if date.Some? && date.value !in index {
      forall k | 0 <= k < i ensures overrides[k].date != date { assert overrides[k] in overrides[..i]; }
    }
  }

  lemma IndexUnfolds(overrides: seq<Override>, i: nat)
    requires i < |overrides|
    ensures var date, index := overrides[i].date, Index(overrides[..i]);
      Index(overrides[..i + 1]) == if date.None? then index else index[date.value := overrides[i]]
  {
    assert overrides[..i + 1][..i] == overrides[..i];
  }

  method IndexOverrides(overrides: seq<Override>) returns (result: Result<map<Day, Override>>)
    ensures result.Ok? <==> ValidOverrides(overrides)
    ensures result.Ok? ==> result.value == Index(overrides)
  {
    hide Index, ValidOverrides;
    var index: map<Day, Override> := map[];
    NoOverrides();
    assert overrides[..0] == [];
    for i := 0 to |overrides|
      invariant ValidOverrides(overrides[..i])
      invariant index == Index(overrides[..i])
    {
      OneMoreOverride(overrides, i);
      var override := overrides[i];
      if override.date.None? { return Err(Invalid); }
      var day: Day := override.date.value;
      if day in index { return Err(Duplicate); }
      index := index[day := override];
    }
    assert overrides[..|overrides|] == overrides;
    return Ok(index);
  }

  lemma NoOverrides()
    ensures ValidOverrides([]) && Index([]) == map[]
  {
  }

  /** The candidate days of a weekly schedule: scan day by day, then add the overrides. */
  method CandidateDays(meeting: Meeting, overrides: map<Day, Override>, from: Instant, to: Instant) returns (days: set<Day>)
    requires Ordered(meeting.zone) && meeting.schedule.Weekly? && meeting.schedule.clock.Some?
    ensures forall d :: d in days <==> Candidate(meeting, overrides, from, to, d)
  {
    var zone := meeting.zone;
    days := {};
    var first := zone.dayOf(from) - 1;
    var d := first;
    while Midnight(zone, d) <= to
      invariant first <= d
      invariant forall k | first <= k < d :: Midnight(zone, k) <= to
      invariant forall k :: k in days <==> (first <= k < d && Weekday(k) in meeting.schedule.days)
      decreases -Midnight(zone, d) + to
    {
      if Weekday(d) in meeting.schedule.days { days := days + {d}; }
      assert DaysFollow(zone, d);
      d := d + 1;
    }
    forall k | d <= k ensures to < Midnight(zone, k) { DaysAscend(zone, d, k); }
    var done: set<Day> := {};
    while done != overrides.Keys
      invariant done <= overrides.Keys
      invariant forall k :: k in days <==>
        Weekday(k) in meeting.schedule.days && ((first <= k && Midnight(zone, k) <= to) || k in done)
      decreases overrides.Keys - done
    {
      var k := Following(overrides.Keys, done);
      if Weekday(k) in meeting.schedule.days { days := days + {k}; }
      done := done + {k};
    }
  }

  /** What the loop over days leaves: the overlapping occurrences of the days done. */
  ghost predicate Collected(meeting: Meeting, overrides: map<Day, Override>, from: Instant, to: Instant, done: set<Day>, result: seq<Occurrence>) {
    forall o :: o in result <==> o.date in done && o == OccurrenceOn(meeting, overrides, o.date) && Overlaps(o, from, to)
  }

  /** The occurrence on one day, under the day's override if it has one. */
  method BuildOccurrence(meeting: Meeting, overrides: map<Day, Override>, d: Day) returns (result: Result<Occurrence>)
    ensures result == if ValidDuration(DurationOn(meeting, OverrideOn(overrides, d)))
                      then Ok(OccurrenceOn(meeting, overrides, d)) else Err(Invalid)
  {
    var startsAt := ScheduledStart(meeting, d);
    var duration, venue, cancelled, version := meeting.duration, meeting.venue, false, meeting.version;
    if d in overrides {
      var override := overrides[d];
      if override.startsAt.Some? { startsAt := override.startsAt.value; }
      if override.duration.Some? { duration := override.duration.value; }
      if override.venue.Some? { venue := override.venue.value; }
      if override.cancelled { cancelled := true; }
      if override.version > version { version := override.version; }
    }
    if duration < 1 || duration > 1440 { return Err(Invalid); }
    return Ok(Occurrence(d, meeting.id(d), startsAt, startsAt + duration * MINUTE, cancelled, venue, version));
  }

  method CollectDays(meeting: Meeting, overrides: map<Day, Override>, from: Instant, to: Instant, days: set<Day>)
    returns (result: Result<seq<Occurrence>>)
    ensures result.Ok? <==> forall d | d in days :: ValidDuration(DurationOn(meeting, OverrideOn(overrides, d)))
    ensures result.Ok? ==> Collected(meeting, overrides, from, to, days, result.value) && NoRepeats(result.value)
    ensures result.Ok? ==> forall o | o in result.value :: o.startsAt < o.endsAt
  {
    var values: seq<Occurrence> := [];
    var done: set<Day> := {};
    while done != days
      invariant done <= days
      invariant forall d | d in done :: ValidDuration(DurationOn(meeting, OverrideOn(overrides, d)))
      invariant Collected(meeting, overrides, from, to, done, values) && NoRepeats(values)
      decreases days - done
    {
      var d := Following(days, done);
      var o :- BuildOccurrence(meeting, overrides, d);
      if o.startsAt < to && o.endsAt > from {
        forall i | 0 <= i < |values| ensures values[i] != o { assert values[i] in values; }
        values := values + [o];
      }
      done := done + {d};
    }
    forall o | o in values ensures o.startsAt < o.endsAt {
      WithinADay(DurationOn(meeting, OverrideOn(overrides, o.date)));
    }
    return Ok(values);
  }

  lemma BeforeCompares()
    ensures Compares(Before)
  {
  }

  /** Sorted occurrences of different days ascend strictly. */
  lemma SortedAscends(meeting: Meeting, overrides: map<Day, Override>, from: Instant, to: Instant, days: set<Day>, result: seq<Occurrence>)
    requires Collected(meeting, overrides, from, to, days, result) && NoRepeats(result) && Sorted(result, Before)
    requires forall a, b :: meeting.id(a) == meeting.id(b) ==> a == b
    ensures Ascending(result)
  {
    forall i, j | 0 <= i < j < |result| ensures Before(result[i], result[j]) {
      assert result[i] in result && result[j] in result;
      assert !Before(result[j], result[i]);
      assert result[i] != result[j];
      assert result[i].date != result[j].date;
    }
  }

  /** What the scan returns over the candidate days is the answer over all days exactly when
      none escapes. */
  lemma ScanAnswers(meeting: Meeting, overrides: map<Day, Override>, from: Instant, to: Instant, result: seq<Occurrence>)
    requires Ascending(result)
    requires forall o :: o in result <==>
      Candidate(meeting, overrides, from, to, o.date) && o == OccurrenceOn(meeting, overrides, o.date) && Overlaps(o, from, to)
    ensures Answers(meeting, overrides, from, to, result) <==> NoneEscapes(meeting, overrides, from, to)
  {
    if Answers(meeting, overrides, from, to, result) {
      forall d | Scheduled(meeting, d) && Overlaps(OccurrenceOn(meeting, overrides, d), from, to)
        ensures Candidate(meeting, overrides, from, to, d)
      {
        assert OccurrenceOn(meeting, overrides, d) in result;
      }
    }
  }

  // ---------------------------------------------------------------- read off the list of overrides

  /** The schedule names day `d`: it is the day of the single start, or one of the weekdays. */
  ghost predicate OnTimetable(meeting: Meeting, d: Day) {
    match meeting.schedule
    case Once(startsAt) => startsAt.Some? && FallsOn(meeting.zone, d, startsAt.value)
    case Weekly(days, clock) => clock.Some? && exists i | 0 <= i < |days| :: (d + 4 - days[i]) % 7 == 0
    case Unsupported => false
  }

  /** The start the schedule gives for day `d`. */
  ghost predicate TimetabledAt(meeting: Meeting, d: Day, t: Instant) {
    match meeting.schedule
    case Once(startsAt) => startsAt == Some(t)
    case Weekly(_, clock) => clock.Some? && t == meeting.zone.at(d, clock.value)
    case Unsupported => false
  }

  /** The occurrence is as the override says, and as the meeting says where it says nothing. */
  ghost predicate Obeys(meeting: Meeting, v: Override, o: Occurrence) {
    && (if v.startsAt.Some? then o.startsAt == v.startsAt.value else TimetabledAt(meeting, o.date, o.startsAt))
    && o.endsAt - o.startsAt == MINUTE * (if v.duration.Some? then v.duration.value else meeting.duration)
    && (o.cancelled <==> v.cancelled)
    && o.venue == (if v.venue.Some? then v.venue.value else meeting.venue)
    && meeting.version <= o.version && v.version <= o.version && o.version in {meeting.version, v.version}
  }

  ghost predicate Plain(meeting: Meeting, o: Occurrence) {
    && TimetabledAt(meeting, o.date, o.startsAt)
    && o.endsAt - o.startsAt == MINUTE * meeting.duration
    && !o.cancelled && o.venue == meeting.venue && o.version == meeting.version
  }

  ghost predicate Overridden(overrides: seq<Override>, d: Day) {
    exists i | 0 <= i < |overrides| :: overrides[i].date == Some(d)
  }

  /** An occurrence of the meeting: on a day of the schedule, as the day's override says, or as
      the meeting says if there is none. */
  ghost predicate Occurs(meeting: Meeting, overrides: seq<Override>, o: Occurrence) {
    && OnTimetable(meeting, o.date)
    && o.id == meeting.id(o.date)
    && (forall i | 0 <= i < |overrides| && overrides[i].date == Some(o.date) :: Obeys(meeting, overrides[i], o))
    && (!Overridden(overrides, o.date) ==> Plain(meeting, o))
  }

  /** A weekly schedule is looked at from the day before `from` to the day of `to`, and on the
      days with an override. */
  ghost predicate LookedAt(meeting: Meeting, overrides: seq<Override>, from: Instant, to: Instant, d: Day) {
    meeting.schedule.Weekly? ==>
      (from < meeting.zone.at(d + 2, 0) && meeting.zone.at(d, 0) <= to) || Overridden(overrides, d)
  }

  /** Between 1 minute and 24 hours, wherever it is looked at. */
  ghost predicate ValidLengths(meeting: Meeting, overrides: seq<Override>, from: Instant, to: Instant) {
    forall d | OnTimetable(meeting, d) && LookedAt(meeting, overrides, from, to, d) ::
      && (forall i | 0 <= i < |overrides| && overrides[i].date == Some(d) && overrides[i].duration.Some? ::
            1 <= overrides[i].duration.value <= 1440)
      && ((forall i | 0 <= i < |overrides| && overrides[i].date == Some(d) :: overrides[i].duration.None?) ==>
            1 <= meeting.duration <= 1440)
  }

  lemma TimetableIs(meeting: Meeting, d: Day)
    requires Ordered(meeting.zone) && ValidSchedule(meeting.schedule)
    ensures OnTimetable(meeting, d) <==> Scheduled(meeting, d)
    ensures forall t :: TimetabledAt(meeting, d, t) <==> t == ScheduledStart(meeting, d)
  {
    hide DaysFollow;
    match meeting.schedule
    case Once(startsAt) =>
      assert HasItsDay(meeting.zone, startsAt.value);
      if FallsOn(meeting.zone, d, startsAt.value) { DayIsUnique(meeting.zone, startsAt.value, d); }
    case Weekly(days, clock) =>
      if Scheduled(meeting, d) {
        var i :| 0 <= i < |days| && days[i] == Weekday(d);
        assert (d + 4 - days[i]) % 7 == 0;
      }
      if i :| 0 <= i < |days| && (d + 4 - days[i]) % 7 == 0 { assert Weekday(d) == days[i]; }
    case Unsupported =>
  }

  lemma OverriddenIs(overrides: seq<Override>, d: Day)
    requires ValidOverrides(overrides)
    ensures Overridden(overrides, d) <==> d in Index(overrides)
    ensures forall i | 0 <= i < |overrides| && overrides[i].date == Some(d) :: d in Index(overrides) && overrides[i] == Index(overrides)[d]
  {
    IndexLooksUp(overrides);
    forall i | 0 <= i < |overrides| && overrides[i].date == Some(d) ensures d in Index(overrides) && overrides[i] == Index(overrides)[d] {
      assert overrides[i] in overrides;
    }
    if d in Index(overrides) { var i :| 0 <= i < |overrides| && overrides[i] == Index(overrides)[d]; }
  }

  /** The occurrence computed from the index is the one read off the list, and the only one. */
  lemma OccursIs(meeting: Meeting, overrides: seq<Override>, o: Occurrence)
    requires Ordered(meeting.zone) && ValidSchedule(meeting.schedule) && ValidOverrides(overrides)
    ensures Occurs(meeting, overrides, o) <==>
      Scheduled(meeting, o.date) && o == OccurrenceOn(meeting, Index(overrides), o.date)
  {
    hide Ordered, ValidSchedule, ValidOverrides, Index, OnTimetable, Scheduled, TimetabledAt, ScheduledStart;
    TimetableIs(meeting, o.date);
    OverriddenIs(overrides, o.date);
    if o.date in Index(overrides) {
      var i :| 0 <= i < |overrides| && overrides[i].date == Some(o.date);
      assert Occurs(meeting, overrides, o) ==> Obeys(meeting, overrides[i], o);
    }
  }

  lemma LookedAtIs(meeting: Meeting, overrides: seq<Override>, from: Instant, to: Instant, d: Day)
    requires Ordered(meeting.zone) && ValidSchedule(meeting.schedule) && ValidOverrides(overrides)
    ensures OnTimetable(meeting, d) && LookedAt(meeting, overrides, from, to, d) <==> Candidate(meeting, Index(overrides), from, to, d)
  {
    hide ValidOverrides, Index, OnTimetable, Scheduled;
    TimetableIs(meeting, d);
    OverriddenIs(overrides, d);
    var today := meeting.zone.dayOf(from);
    assert HasItsDay(meeting.zone, from);
    if today - 1 <= d { DaysAscend(meeting.zone, today + 1, d + 2); }
    if from < Midnight(meeting.zone, d + 2) { OneDayBack(meeting.zone, d, from); }
  }

  lemma LengthsAgree(meeting: Meeting, overrides: seq<Override>, from: Instant, to: Instant)
    requires Ordered(meeting.zone) && ValidSchedule(meeting.schedule) && ValidOverrides(overrides)
    ensures ValidLengths(meeting, overrides, from, to) <==> ValidDurations(meeting, Index(overrides), from, to)
  {
    hide Ordered, ValidSchedule, ValidOverrides, Index, OnTimetable, Candidate, LookedAt;
    forall d
      ensures OnTimetable(meeting, d) && LookedAt(meeting, overrides, from, to, d) <==> Candidate(meeting, Index(overrides), from, to, d)
      ensures Overridden(overrides, d) <==> d in Index(overrides)
      ensures forall i | 0 <= i < |overrides| && overrides[i].date == Some(d) :: d in Index(overrides) && overrides[i] == Index(overrides)[d]
    {
      LookedAtIs(meeting, overrides, from, to, d);
      OverriddenIs(overrides, d);
    }
  }

  /** What the scan collects, read off the list of overrides. */
  lemma CollectedOccur(meeting: Meeting, overrides: seq<Override>, from: Instant, to: Instant, result: seq<Occurrence>)
    requires Ordered(meeting.zone) && ValidSchedule(meeting.schedule) && ValidOverrides(overrides)
    requires forall o :: o in result <==>
      Candidate(meeting, Index(overrides), from, to, o.date) && o == OccurrenceOn(meeting, Index(overrides), o.date) && Overlaps(o, from, to)
    ensures forall o :: o in result <==>
      LookedAt(meeting, overrides, from, to, o.date) && Occurs(meeting, overrides, o) && o.startsAt < to && from < o.endsAt
  {
    hide Ordered, ValidSchedule, ValidOverrides, Index, OnTimetable, LookedAt, Occurs, OccurrenceOn, Candidate;
    forall o ensures o in result <==>
      LookedAt(meeting, overrides, from, to, o.date) && Occurs(meeting, overrides, o) && o.startsAt < to && from < o.endsAt
    {
      OccursIs(meeting, overrides, o);
      LookedAtIs(meeting, overrides, from, to, o.date);
      CandidatesAreScheduled(meeting, Index(overrides), from, to, o.date);
      OccursOnTimetable(meeting, overrides, o);
    }
  }

  lemma CandidatesAreScheduled(meeting: Meeting, overrides: map<Day, Override>, from: Instant, to: Instant, d: Day)
    ensures Candidate(meeting, overrides, from, to, d) ==> Scheduled(meeting, d)
  {
  }

  lemma OccursOnTimetable(meeting: Meeting, overrides: seq<Override>, o: Occurrence)
    ensures Occurs(meeting, overrides, o) ==> OnTimetable(meeting, o.date)
  {
  }

  // ---------------------------------------------------------------- the query

  method ValidWeekdays(weekdays: seq<int>) returns (valid: bool)
    ensures valid <==> forall i | 0 <= i < |weekdays| :: 0 <= weekdays[i] <= 6
  {
    for i := 0 to |weekdays|
      invariant forall k | 0 <= k < i :: 0 <= weekdays[k] <= 6
    {
      if weekdays[i] < 0 || weekdays[i] > 6 { return false; }
    }
    return true;
  }

  /** The day of a single meeting, or what the scan and the overrides give. */
  method DaysToConsider(meeting: Meeting, index: map<Day, Override>, from: Instant, to: Instant) returns (result: Result<set<Day>>)
    requires Ordered(meeting.zone) && from < to
    ensures result.Ok? <==> ValidSchedule(meeting.schedule)
    ensures result.Ok? ==> forall d :: d in result.value <==> Candidate(meeting, index, from, to, d)
  {
    match meeting.schedule {
      case Once(startsAt) =>
        if startsAt.None? { return Err(Invalid); }
        return Ok({meeting.zone.dayOf(startsAt.value)});
      case Weekly(weekdays, clock) =>
        if clock.None? { return Err(Invalid); }
        var valid := ValidWeekdays(weekdays);
        if !valid || |weekdays| == 0 { return Err(Invalid); }
        var days := CandidateDays(meeting, index, from, to);
        return Ok(days);
      case Unsupported =>
        return Err(Invalid);
    }
  }

  /** ResolveOccurrences. It fails exactly for a bad override, a bad schedule, or a bad duration
      on a day it looks at. Otherwise its result holds exactly the occurrences of the range on the
      days it looks at, as schedule and overrides say, and is the answer over all days exactly when
      no occurrence of the range escapes the scan. */
  method ResolveOccurrences(meeting: Meeting, overrides: seq<Override>, from: Instant, to: Instant)
    returns (result: Result<seq<Occurrence>>)
    requires Ordered(meeting.zone) && forall a, b :: meeting.id(a) == meeting.id(b) ==> a == b
    ensures to <= from ==> result == Ok([])
    ensures from < to ==>
      (result.Ok? <==> ValidOverrides(overrides) && ValidSchedule(meeting.schedule) && ValidLengths(meeting, overrides, from, to))
    ensures from < to && result.Ok? ==> forall o :: o in result.value <==>
      LookedAt(meeting, overrides, from, to, o.date) && Occurs(meeting, overrides, o) && o.startsAt < to && from < o.endsAt
    ensures from < to && result.Ok? ==>
      (Answers(meeting, Index(overrides), from, to, result.value) <==> NoneEscapes(meeting, Index(overrides), from, to))
    ensures from < to && result.Ok? ==> Ascending(result.value)
    ensures result.Ok? ==> forall i | 0 <= i < |result.value| :: result.value[i].startsAt < result.value[i].endsAt
  {
    if to <= from { return Ok([]); }
    var index :- IndexOverrides(overrides);
    hide ValidOverrides, Index, IndexedBy, NoneEscapes, Answers, ValidLengths, LookedAt, Occurs;
    var days :- DaysToConsider(meeting, index, from, to);
    LengthsAgree(meeting, overrides, from, to);
    var values :- CollectDays(meeting, index, from, to, days);
    BeforeCompares();
    var sorted := SortClone(values, Before);
    NoRepeatsIsOrderFree(values, sorted);
    forall o: Occurrence ensures o in sorted <==> o in values { assert o in multiset(sorted) <==> o in multiset(values); }
    SortedAscends(meeting, index, from, to, days, sorted);
    ScanAnswers(meeting, index, from, to, sorted);
    CollectedOccur(meeting, overrides, from, to, sorted);
    return Ok(sorted);
  }
}
