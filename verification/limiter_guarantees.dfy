/** What the translation limiter promises, read off what it accepted and released: spacing by
    cooldowns, exactly when a reservation is accepted, and where the wait it names ends. */
module LimiterGuarantees {
  import opened ContentModel
  import opened Limiter

  const ONE_MINUTE: nat := 60_000_000
  const ONE_DAY: nat := 86_400_000_000

  /** The reservations of the history in the minute of `t`, or the day; of all actors, or one. */
  ghost function InMinute(h: seq<Entry>, t: nat): set<nat> {
    set i: nat | i < |h| && h[i].Reserved? && h[i].r.now / ONE_MINUTE == t / ONE_MINUTE
  }

  ghost function InMinuteBy(h: seq<Entry>, t: nat, actor: string): set<nat> {
    set i: nat | i < |h| && h[i].Reserved? && h[i].r.now / ONE_MINUTE == t / ONE_MINUTE && h[i].r.subject.actor == actor
  }

  ghost function InDay(h: seq<Entry>, t: nat): set<nat> {
    set i: nat | i < |h| && h[i].Reserved? && h[i].r.now / ONE_DAY == t / ONE_DAY
  }

  ghost function InDayBy(h: seq<Entry>, t: nat, actor: string): set<nat> {
    set i: nat | i < |h| && h[i].Reserved? && h[i].r.now / ONE_DAY == t / ONE_DAY && h[i].r.subject.actor == actor
  }

  /** A release of `r`: the same subject, time and cooldown. */
  predicate Releases(e: Entry, r: Reservation) {
    e.Released? && e.r.subject == r.subject && e.r.now == r.now && e.r.cooldown == r.cooldown
  }

  /** Entry `i` is a reservation of the subject that was not released since. */
  predicate Unreleased(h: seq<Entry>, i: nat, s: Subject) {
    && i < |h| && h[i].Reserved? && h[i].r.subject == s
    && forall j | i < j < |h| :: !Releases(h[j], h[i].r)
  }

  function EndOf(r: Reservation): int {
    r.now + r.cooldown
  }

  /** Reservation `i` still keeps its subject from being reserved at `t`. */
  predicate Cooling(h: seq<Entry>, i: nat, s: Subject, t: nat) {
    Unreleased(h, i, s) && t < EndOf(h[i].r)
  }

  ghost predicate MinuteIsFull(h: seq<Entry>, r: Reservation) {
    |InMinute(h, r.now)| >= r.limits.deploymentMinute || |InMinuteBy(h, r.now, r.subject.actor)| >= r.limits.actorMinute
  }

  ghost predicate DayIsFull(h: seq<Entry>, r: Reservation) {
    |InDay(h, r.now)| >= r.limits.deploymentDay || |InDayBy(h, r.now, r.subject.actor)| >= r.limits.actorDay
  }

  // ---------------------------------------------------------------- counters

  /** The entries a counter has seen. */
  ghost function Seen(h: seq<Entry>, scope: Scope, window: nat): set<nat> {
    set i: nat | i < |h| && h[i].Reserved? && CountsIn(h[i].r, scope, window)
  }

  lemma {:induction false} CountIsSeen(h: seq<Entry>, scope: Scope, window: nat)
    ensures Count(h, scope, window) == |Seen(h, scope, window)|
  {
    hide CountsIn;
    if h == [] {
      assert Seen(h, scope, window) == {};
    } else {
      var n := |h| - 1;
      CountIsSeen(h[..n], scope, window);
      hide Count;
      SeenLast(h, scope, window);
      CountLast(h, scope, window);
    }
  }

  lemma SeenLast(h: seq<Entry>, scope: Scope, window: nat)
    requires h != []
    ensures var n := |h| - 1;
      var before := Seen(h[..n], scope, window);
      && n !in before
      && Seen(h, scope, window) == if h[n].Reserved? && CountsIn(h[n].r, scope, window) then before + {n} else before
  {
    hide CountsIn;
  }

  lemma CountLast(h: seq<Entry>, scope: Scope, window: nat)
    requires h != []
    ensures var n := |h| - 1;
      Count(h, scope, window) == Count(h[..n], scope, window) + if h[n].Reserved? && CountsIn(h[n].r, scope, window) then 1 else 0
  {
    hide CountsIn;
  }

  lemma SameMinute(a: nat, b: nat)
    ensures MinuteOf(a) == MinuteOf(b) <==> a / ONE_MINUTE == b / ONE_MINUTE
    ensures DayOf(a) == DayOf(b) <==> a / ONE_DAY == b / ONE_DAY
  {
  }

  /** The four counts of a history are the numbers of reservations in its minute and day. */
  lemma CountsAre(h: seq<Entry>, r: Reservation)
    ensures Count(h, DeploymentMinute, MinuteOf(r.now)) == |InMinute(h, r.now)|
    ensures Count(h, ActorMinute(r.subject.actor), MinuteOf(r.now)) == |InMinuteBy(h, r.now, r.subject.actor)|
    ensures Count(h, DeploymentDay, DayOf(r.now)) == |InDay(h, r.now)|
    ensures Count(h, ActorDay(r.subject.actor), DayOf(r.now)) == |InDayBy(h, r.now, r.subject.actor)|
  {
    hide Count, MinuteOf, DayOf;
    forall i: nat | i < |h|
      ensures MinuteOf(h[i].r.now) == MinuteOf(r.now) <==> h[i].r.now / ONE_MINUTE == r.now / ONE_MINUTE
      ensures DayOf(h[i].r.now) == DayOf(r.now) <==> h[i].r.now / ONE_DAY == r.now / ONE_DAY
    {
      SameMinute(h[i].r.now, r.now);
    }
    CountIsSeen(h, DeploymentMinute, MinuteOf(r.now));
    CountIsSeen(h, ActorMinute(r.subject.actor), MinuteOf(r.now));
    CountIsSeen(h, DeploymentDay, DayOf(r.now));
    CountIsSeen(h, ActorDay(r.subject.actor), DayOf(r.now));
    assert Seen(h, DeploymentMinute, MinuteOf(r.now)) == InMinute(h, r.now);
    assert Seen(h, ActorMinute(r.subject.actor), MinuteOf(r.now)) == InMinuteBy(h, r.now, r.subject.actor);
    assert Seen(h, DeploymentDay, DayOf(r.now)) == InDay(h, r.now);
    assert Seen(h, ActorDay(r.subject.actor), DayOf(r.now)) == InDayBy(h, r.now, r.subject.actor);
  }

  // ---------------------------------------------------------------- cooldowns

  /** Each reservation of the history was accepted in its time. */
  ghost predicate Orderly(h: seq<Entry>, clock: nat) {
    h == [] ||
    var last := h[|h| - 1];
    var before := h[..|h| - 1];
    if last.Reserved? then
      && last.r.now <= clock && Orderly(before, last.r.now)
      && ValidReservation(last.r) && AllowedAfter(CooldownIn(before, last.r.subject), last.r.now)
    else Orderly(before, clock)
  }

  predicate AllowedAfter(row: Option<Cooldown>, t: nat) {
    row.Some? ==> row.value.nextAllowed <= t
  }

  lemma {:induction false} OrderlyLater(h: seq<Entry>, clock: nat, later: nat)
    requires Orderly(h, clock) && clock <= later
    ensures Orderly(h, later)
    decreases |h|
  {
    if h != [] && h[|h| - 1].Released? { OrderlyLater(h[..|h| - 1], clock, later); }
  }

  lemma OrderlyAppends(h: seq<Entry>, clock: nat, e: Entry)
    requires Orderly(h, clock)
    requires e.Reserved? ==> clock <= e.r.now && ValidReservation(e.r) && AllowedAfter(CooldownIn(h, e.r.subject), e.r.now)
    ensures Orderly(h + [e], if e.Reserved? then e.r.now else clock)
  {
    assert (h + [e])[..|h|] == h;
    if e.Reserved? { OrderlyLater(h, clock, e.r.now); }
  }

  /** The subject's row comes from an unreleased reservation; every other one has run out. */
  ghost predicate RowStands(h: seq<Entry>, clock: nat, s: Subject) {
    var row := CooldownIn(h, s);
    && (row.Some? ==> exists i: nat :: Unreleased(h, i, s) && row == Some(RowOf(h[i].r)))
    && forall i: nat | Unreleased(h, i, s) :: ValidReservation(h[i].r) && (row == Some(RowOf(h[i].r)) || EndOf(h[i].r) <= clock)
  }

  lemma UnreleasedBefore(h: seq<Entry>, e: Entry, i: nat, s: Subject)
    ensures i < |h| ==> (Unreleased(h + [e], i, s) <==> Unreleased(h, i, s) && !Releases(e, h[i].r))
    ensures Unreleased(h + [e], |h|, s) <==> e.Reserved? && e.r.subject == s
  {
    var after := h + [e];
    if i < |h| {
      assert after[i] == h[i] && after[|h|] == e;
      if Unreleased(after, i, s) {
        forall j | i < j < |h| ensures !Releases(h[j], h[i].r) { assert after[j] == h[j]; }
      }
    }
  }

  lemma StandsAfter(h: seq<Entry>, clock: nat, e: Entry, s: Subject)
    requires RowStands(h, clock, s)
    requires e.Reserved? ==> clock <= e.r.now && ValidReservation(e.r) && AllowedAfter(CooldownIn(h, e.r.subject), e.r.now)
    ensures RowStands(h + [e], if e.Reserved? then e.r.now else clock, s)
  {
    hide Unreleased, ValidReservation, CooldownIn;
    var after := h + [e];
    var row := CooldownIn(h, s);
    CooldownAppend(h, e, s);
    forall i: nat | i < |h| ensures after[i] == h[i] && (Unreleased(after, i, s) <==> Unreleased(h, i, s) && !Releases(e, h[i].r)) {
      UnreleasedBefore(h, e, i, s);
    }
    UnreleasedBefore(h, e, |h|, s);
    forall i: nat | Unreleased(after, i, s) ensures i == |h| || Unreleased(h, i, s) { InRange(after, i, s); }
    forall i: nat | Unreleased(h, i, s) ensures i < |h| && h[i].r.subject == s && ReleaseValid(h[i].r) {
      InRange(h, i, s);
      ReservedCanBeReleased(h[i].r);
    }
    if row.Some? {
      var i: nat :| Unreleased(h, i, s) && row == Some(RowOf(h[i].r));
      assert Unreleased(after, i, s) <==> !Releases(e, h[i].r);
    }
  }

  lemma InRange(h: seq<Entry>, i: nat, s: Subject)
    requires Unreleased(h, i, s)
    ensures i < |h| && h[i].Reserved? && h[i].r.subject == s
  {
  }

  lemma ReservedCanBeReleased(r: Reservation)
    requires ValidReservation(r)
    ensures ReleaseValid(r)
  {
  }

  lemma {:induction false} RowsStand(h: seq<Entry>, clock: nat, s: Subject)
    requires Orderly(h, clock)
    ensures RowStands(h, clock, s)
    decreases |h|
  {
    hide ValidReservation, CooldownIn, RowStands, AllowedAfter;
    if h == [] {
      NothingStands(clock, s);
    } else {
      var n := |h| - 1;
      assert h[..n] + [h[n]] == h;
      if h[n].Reserved? {
        RowsStand(h[..n], h[n].r.now, s);
        StandsAfter(h[..n], h[n].r.now, h[n], s);
        StandsLater(h, h[n].r.now, clock, s);
      } else {
        RowsStand(h[..n], clock, s);
        StandsAfter(h[..n], clock, h[n], s);
      }
    }
  }

  lemma NothingStands(clock: nat, s: Subject)
    ensures RowStands([], clock, s)
  {
  }

  lemma StandsLater(h: seq<Entry>, clock: nat, later: nat, s: Subject)
    requires RowStands(h, clock, s) && clock <= later
    ensures RowStands(h, later, s)
  {
    hide Unreleased, ValidReservation, CooldownIn;
  }

  /** The row keeps a subject from being reserved exactly when an unreleased reservation does. */
  lemma RowsCool(h: seq<Entry>, clock: nat, s: Subject, t: nat)
    requires Orderly(h, clock) && clock <= t
    ensures (exists i: nat :: Cooling(h, i, s, t)) <==> !AllowedAfter(CooldownIn(h, s), t)
    ensures forall i: nat | Cooling(h, i, s, t) :: CooldownIn(h, s) == Some(RowOf(h[i].r))
  {
    RowsStand(h, clock, s);
    hide Unreleased, ValidReservation, CooldownIn, Orderly;
    if !AllowedAfter(CooldownIn(h, s), t) {
      var i: nat :| Unreleased(h, i, s) && CooldownIn(h, s) == Some(RowOf(h[i].r));
      assert Cooling(h, i, s, t);
    }
  }

  // ---------------------------------------------------------------- what is accepted

  /** The time of the last reservation of a run. */
  function ClockAfter(commands: seq<Command>, clock: nat): nat {
    if commands == [] then clock
    else ClockAfter(commands[1..], if commands[0].DoReserve? then commands[0].r.now else clock)
  }

  /** After a run the tables agree with what was accepted and released, and that was in order. */
  lemma {:induction false} RunAgrees(s: State, h: seq<Entry>, clock: nat, commands: seq<Command>)
    requires Agrees(s, h, clock) && Orderly(h, clock) && Chronological(commands, clock)
    ensures var all := h + Committed(s, commands);
      Agrees(AfterRun(s, commands), all, ClockAfter(commands, clock)) && Orderly(all, ClockAfter(commands, clock))
    decreases commands
  {
    hide Agrees, Orderly, Reserve, Release, ReferenceDecide;
    if commands == [] {
      assert h + [] == h;
    } else {
      match commands[0]
      case DoReserve(r) =>
        ReserveRefines(s, h, clock, r);
        var next := Reserve(s, r).0;
        if Reserve(s, r).1.Accepted? {
          AcceptedInOrder(h, clock, r);
          RunAgrees(next, h + [Reserved(r)], r.now, commands[1..]);
          assert h + ([Reserved(r)] + Committed(next, commands[1..])) == h + [Reserved(r)] + Committed(next, commands[1..]);
        } else {
          OrderlyLater(h, clock, r.now);
          RunAgrees(next, h, r.now, commands[1..]);
          assert [] + Committed(next, commands[1..]) == Committed(next, commands[1..]);
        }
      case DoRelease(r) =>
        ReleaseRefines(s, h, clock, r);
        OrderlyAppends(h, clock, Released(r));
        RunAgrees(Release(s, r), h + [Released(r)], clock, commands[1..]);
        assert h + ([Released(r)] + Committed(Release(s, r), commands[1..])) == h + [Released(r)] + Committed(Release(s, r), commands[1..]);
    }
  }

  lemma AcceptedInOrder(h: seq<Entry>, clock: nat, r: Reservation)
    requires Orderly(h, clock) && clock <= r.now && ReferenceDecide(h, r).Accepted?
    ensures Orderly(h + [Reserved(r)], r.now)
  {
    hide Orderly, Checks, FirstExceeded, ValidReservation;
    OrderlyAppends(h, clock, Reserved(r));
  }

  /** The four checks, spelled out. */
  lemma ChecksPass(r: Reservation, tally: Tally)
    ensures var exceeded := FirstExceeded(Checks(r), tally);
      var full := (scope: Scope, window: nat, limit: int) => tally(scope, window) >= limit;
      var minute := full(DeploymentMinute, MinuteOf(r.now), r.limits.deploymentMinute) ||
                    full(ActorMinute(r.subject.actor), MinuteOf(r.now), r.limits.actorMinute);
      var day := full(DeploymentDay, DayOf(r.now), r.limits.deploymentDay) ||
                 full(ActorDay(r.subject.actor), DayOf(r.now), r.limits.actorDay);
      if minute then exceeded == Some(MinuteOf(r.now) + ONE_MINUTE - r.now)
      else if day then exceeded == Some(DayOf(r.now) + ONE_DAY - r.now)
      else exceeded.None?
  {
    var checks := Checks(r);
    var last := [checks[3]];
    var two := [checks[2], checks[3]];
    var three := [checks[1], checks[2], checks[3]];
    assert last[1..] == [] && two[1..] == last && three[1..] == two && checks[1..] == three;
    assert FirstExceeded([], tally).None?;
    assert FirstExceeded(last, tally) == if tally(checks[3].scope, checks[3].window) + 1 > checks[3].limit then Some(checks[3].retryAfter) else None;
    assert FirstExceeded(two, tally) == if tally(checks[2].scope, checks[2].window) + 1 > checks[2].limit then Some(checks[2].retryAfter) else FirstExceeded(last, tally);
    assert FirstExceeded(three, tally) == if tally(checks[1].scope, checks[1].window) + 1 > checks[1].limit then Some(checks[1].retryAfter) else FirstExceeded(two, tally);
  }

  ghost predicate StillCooling(h: seq<Entry>, s: Subject, t: nat) {
    exists i: nat :: Cooling(h, i, s, t)
  }

  /** The reference limiter's answer, read off its history. */
  lemma ReferenceAnswers(h: seq<Entry>, clock: nat, r: Reservation)
    requires Orderly(h, clock) && clock <= r.now
    ensures Answer(h, r, ReferenceDecide(h, r))
  {
    hide Orderly, Count, CooldownIn, Checks, FirstExceeded, ValidReservation, MinuteOf, DayOf, InMinute, InMinuteBy, InDay, InDayBy;
    CountsAre(h, r);
    ChecksPass(r, TallyIn(h));
    WindowsEnd(r.now);
    RowsCool(h, clock, r.subject, r.now);
    if StillCooling(h, r.subject, r.now) {
      var i: nat :| Cooling(h, i, r.subject, r.now);
      assert CooldownIn(h, r.subject) == Some(RowOf(h[i].r));
    }
  }

  /** What a reservation is answered: refused exactly if it is not valid; told to wait until the
      minute ends if one of the two counts of the minute is used up, or else until the day ends if
      one of the day's is, or else until the subject's cooldown ends; and accepted otherwise. */
  ghost predicate Answer(h: seq<Entry>, r: Reservation, outcome: Outcome) {
    if !ValidReservation(r) then outcome.Refused?
    else if MinuteIsFull(h, r) then outcome.Limited? && r.now + outcome.retryAfter == (r.now / ONE_MINUTE + 1) * ONE_MINUTE
    else if DayIsFull(h, r) then outcome.Limited? && r.now + outcome.retryAfter == (r.now / ONE_DAY + 1) * ONE_DAY
    else if StillCooling(h, r.subject, r.now) then
      outcome.Limited? && forall i: nat | Cooling(h, i, r.subject, r.now) :: r.now + outcome.retryAfter == EndOf(h[i].r)
    else outcome.Accepted?
  }

  lemma WindowsEnd(t: nat)
    ensures MinuteOf(t) + ONE_MINUTE == (t / ONE_MINUTE + 1) * ONE_MINUTE
    ensures DayOf(t) + ONE_DAY == (t / ONE_DAY + 1) * ONE_DAY
  {
  }

  const EMPTY := State(map[], map[])

  /** What the tables accepted and released in a run that starts with empty ones. */
  function History(commands: seq<Command>): seq<Entry> {
    Committed(EMPTY, commands)
  }

  lemma HistoryAgrees(commands: seq<Command>, clock: nat)
    requires Chronological(commands, clock)
    ensures Agrees(AfterRun(EMPTY, commands), History(commands), ClockAfter(commands, clock))
    ensures Orderly(History(commands), ClockAfter(commands, clock))
  {
    hide Agrees;
    EmptyAgrees(clock);
    RunAgrees(EMPTY, [], clock, commands);
    assert [] + Committed(EMPTY, commands) == Committed(EMPTY, commands);
  }

  /** After any run with a clock that does not go back, the purged tables answer a reservation
      as everything they ever accepted and released demands. */
  lemma AnsweredExactly(commands: seq<Command>, clock: nat, r: Reservation)
    requires Chronological(commands, clock) && ClockAfter(commands, clock) <= r.now
    ensures Answer(History(commands), r, Reserve(AfterRun(EMPTY, commands), r).1)
  {
    hide Agrees, Orderly, Answer, Reserve, ReferenceDecide, History;
    HistoryAgrees(commands, clock);
    ReserveRefines(AfterRun(EMPTY, commands), History(commands), ClockAfter(commands, clock), r);
    ReferenceAnswers(History(commands), ClockAfter(commands, clock), r);
  }

  lemma {:induction false} OrderlyPrefix(h: seq<Entry>, clock: nat, k: nat)
    requires Orderly(h, clock) && k < |h| && h[k].Reserved?
    ensures Orderly(h[..k], h[k].r.now) && AllowedAfter(CooldownIn(h[..k], h[k].r.subject), h[k].r.now)
    decreases |h|
  {
    hide CooldownIn, ValidReservation, AllowedAfter;
    var n := |h| - 1;
    if k < n {
      assert h[..n][..k] == h[..k];
      OrderlyPrefix(h[..n], if h[n].Reserved? then h[n].r.now else clock, k);
    }
  }

  /** Two accepted reservations of a subject are a cooldown apart, unless the first was released
      in between. */
  lemma CooldownsAreKept(commands: seq<Command>, clock: nat, i: nat, k: nat)
    requires Chronological(commands, clock)
    requires var h := History(commands);
      && i < k < |h| && h[i].Reserved? && h[k].Reserved? && h[i].r.subject == h[k].r.subject
      && forall j | i < j < k :: !Releases(h[j], h[i].r)
    ensures History(commands)[i].r.now + History(commands)[i].r.cooldown <= History(commands)[k].r.now
  {
    hide Orderly, History, Agrees, Releases, CooldownIn, AllowedAfter;
    HistoryAgrees(commands, clock);
    var h := History(commands);
    var s, t := h[k].r.subject, h[k].r.now;
    OrderlyPrefix(h, ClockAfter(commands, clock), k);
    RowsCool(h[..k], t, s, t);
    assert Unreleased(h[..k], i, s);
    assert Cooling(h[..k], i, s, t) <==> t < EndOf(h[i].r);
  }

  /** An accepted reservation leaves no counter from before the day before yesterday, and no
      cooldown that ended more than a day ago. */
  lemma OldRowsAreGone(s: State, r: Reservation)
    requires Reserve(s, r).1.Accepted?
    ensures var after := Reserve(s, r).0;
      && (forall key | key in after.counters :: r.now / ONE_DAY * ONE_DAY <= key.1 + 2 * ONE_DAY)
      && (forall subject | subject in after.cooldowns :: r.now <= after.cooldowns[subject].nextAllowed + ONE_DAY)
  {
    hide Decide, Counted;
  }
}
