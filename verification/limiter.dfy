/** The translation limiter: four counters and a cooldown per reservation, purged as it goes,
    against a reference that keeps every reservation and release forever. */
module Limiter {
  import opened ContentModel

  /** Instants are microseconds, the precision the tables store. */
  const MINUTE: nat := 60_000_000
  const DAY: nat := 86_400_000_000

  /** What a cooldown row is keyed by. */
  datatype Subject = Subject(actor: string, resourceType: string, resourceId: string, sourceVersion: int, locale: string)

  datatype Limits = Limits(deploymentMinute: int, actorMinute: int, deploymentDay: int, actorDay: int)

  datatype Reservation = Reservation(subject: Subject, now: nat, cooldown: int, limits: Limits)

  datatype Scope = DeploymentMinute | ActorMinute(actor: string) | DeploymentDay | ActorDay(actor: string)

  datatype Cooldown = Cooldown(nextAllowed: int, updatedAt: nat)

  datatype State = State(counters: map<(Scope, nat), nat>, cooldowns: map<Subject, Cooldown>)

  datatype Outcome = Accepted | Limited(retryAfter: int) | Refused

  /** The start of the minute, and of the UTC day, an instant is in. */
  function MinuteOf(t: nat): nat {
    t - t % 60_000_000
  }

  function DayOf(t: nat): nat {
    t - t % 86_400_000_000
  }

  /** The string is empty once spaces are trimmed. */
  predicate Blank(s: string) {
    forall c | c in s :: c == ' ' || c == '\t' || c == '\n' || c == '\r'
  }

  predicate ValidSubject(s: Subject) {
    !Blank(s.actor) && !Blank(s.resourceType) && !Blank(s.resourceId) && !Blank(s.locale) && s.sourceVersion > 0
  }

  predicate ValidReservation(r: Reservation) {
    && ValidSubject(r.subject)
    && r.limits.actorMinute > 0 && r.limits.deploymentMinute > 0 && r.limits.actorDay > 0 && r.limits.deploymentDay > 0
    && r.cooldown > 0
  }

  // ---------------------------------------------------------------- the four counters

  datatype Check = Check(scope: Scope, window: nat, limit: int, retryAfter: int)

  /** The counters a reservation goes through, in order. */
  function Checks(r: Reservation): (checks: seq<Check>) {
    var toMinute := MinuteOf(r.now) + MINUTE - r.now;
    var toDay := DayOf(r.now) + DAY - r.now;
    [Check(DeploymentMinute, MinuteOf(r.now), r.limits.deploymentMinute, toMinute),
     Check(ActorMinute(r.subject.actor), MinuteOf(r.now), r.limits.actorMinute, toMinute),
     Check(DeploymentDay, DayOf(r.now), r.limits.deploymentDay, toDay),
     Check(ActorDay(r.subject.actor), DayOf(r.now), r.limits.actorDay, toDay)]
  }

  /** No two checks are about the same counter. */
  predicate DistinctWindows(checks: seq<Check>) {
    forall i, j | 0 <= i < j < |checks| :: (checks[i].scope, checks[i].window) != (checks[j].scope, checks[j].window)
  }

  /** A tally says how many reservations a counter has seen. */
  type Tally = (Scope, nat) -> nat

  function TallyOf(counters: map<(Scope, nat), nat>): Tally {
    (scope: Scope, window: nat) => if (scope, window) in counters then counters[(scope, window)] else 0
  }

  /** The wait the first exhausted counter asks for. */
  function FirstExceeded(checks: seq<Check>, tally: Tally): Option<int> {
    if checks == [] then None
    else if tally(checks[0].scope, checks[0].window) + 1 > checks[0].limit then Some(checks[0].retryAfter)
    else FirstExceeded(checks[1..], tally)
  }

  /** What a limiter answers, given its tally and the subject's cooldown. */
  function Decide(r: Reservation, tally: Tally, cooldown: Option<Cooldown>): Outcome {
    if !ValidReservation(r) then Refused
    else
      var exceeded := FirstExceeded(Checks(r), tally);
      if exceeded.Some? then Limited(exceeded.value)
      else if cooldown.Some? && cooldown.value.nextAllowed > r.now then Limited(cooldown.value.nextAllowed - r.now)
      else Accepted
  }

  // ---------------------------------------------------------------- the purging limiter

  function Lookup(cooldowns: map<Subject, Cooldown>, s: Subject): Option<Cooldown> {
    if s in cooldowns then Some(cooldowns[s]) else None
  }

  function Counted(counters: map<(Scope, nat), nat>, checks: seq<Check>): map<(Scope, nat), nat>
    decreases checks
  {
    if checks == [] then counters
    else
      var key := (checks[0].scope, checks[0].window);
      Counted(counters[key := TallyOf(counters)(checks[0].scope, checks[0].window) + 1], checks[1..])
  }

  function PurgedCounters(counters: map<(Scope, nat), nat>, now: nat): map<(Scope, nat), nat> {
    map key | key in counters && !(key.1 < DayOf(now) - 2 * DAY) :: counters[key]
  }

  function PurgedCooldowns(cooldowns: map<Subject, Cooldown>, now: nat): map<Subject, Cooldown> {
    map s | s in cooldowns && !(cooldowns[s].nextAllowed < now - DAY) :: cooldowns[s]
  }

  /** ReserveTranslation: only an accepted reservation changes anything. */
  function Reserve(s: State, r: Reservation): (State, Outcome) {
    var outcome := Decide(r, TallyOf(s.counters), Lookup(s.cooldowns, r.subject));
    if !outcome.Accepted? then (s, outcome)
    else
      (State(PurgedCounters(Counted(s.counters, Checks(r)), r.now),
             PurgedCooldowns(s.cooldowns[r.subject := Cooldown(r.now + r.cooldown, r.now)], r.now)),
       outcome)
  }

  predicate ReleaseValid(r: Reservation) {
    ValidSubject(r.subject) && r.cooldown > 0
  }

  /** ReleaseTranslation: drop the cooldown this very reservation set. */
  function Release(s: State, r: Reservation): State {
    if ReleaseValid(r) && Lookup(s.cooldowns, r.subject) == Some(Cooldown(r.now + r.cooldown, r.now))
    then s.(cooldowns := s.cooldowns - {r.subject}) else s
  }

  // ---------------------------------------------------------------- the reference

  /** Everything that was ever accepted or released, in order. */
  datatype Entry = Reserved(r: Reservation) | Released(r: Reservation)

  function CountsIn(r: Reservation, scope: Scope, window: nat): bool {
    match scope
    case DeploymentMinute => MinuteOf(r.now) == window
    case ActorMinute(actor) => MinuteOf(r.now) == window && r.subject.actor == actor
    case DeploymentDay => DayOf(r.now) == window
    case ActorDay(actor) => DayOf(r.now) == window && r.subject.actor == actor
  }

  /** How many reservations of the history fall into a window. */
  function Count(h: seq<Entry>, scope: Scope, window: nat): nat {
    if h == [] then 0
    else
      var last := h[|h| - 1];
      Count(h[..|h| - 1], scope, window) + if last.Reserved? && CountsIn(last.r, scope, window) then 1 else 0
  }

  /** The cooldown of a subject by the whole history. */
  function CooldownIn(h: seq<Entry>, s: Subject): Option<Cooldown> {
    if h == [] then None
    else
      var last := h[|h| - 1];
      var before := CooldownIn(h[..|h| - 1], s);
      if last.r.subject != s then before
      else if last.Reserved? then Some(Cooldown(last.r.now + last.r.cooldown, last.r.now))
      else if ReleaseValid(last.r) && before == Some(Cooldown(last.r.now + last.r.cooldown, last.r.now)) then None
      else before
  }

  function TallyIn(h: seq<Entry>): Tally {
    (scope: Scope, window: nat) => Count(h, scope, window)
  }

  function ReferenceDecide(h: seq<Entry>, r: Reservation): Outcome {
    Decide(r, TallyIn(h), CooldownIn(h, r.subject))
  }

  function ReferenceReserve(h: seq<Entry>, r: Reservation): seq<Entry> {
    if ReferenceDecide(h, r).Accepted? then h + [Reserved(r)] else h
  }

  // ---------------------------------------------------------------- refinement

  /** The tables agree with the history on everything a reservation made at `clock` or later can
      ask for: what was purged is out of reach. */
  ghost predicate Agrees(s: State, h: seq<Entry>, clock: nat) {
    && (forall key | key in s.counters :: s.counters[key] == Count(h, key.0, key.1))
    && (forall scope: Scope, window: nat | (scope, window) !in s.counters :: Count(h, scope, window) == 0 || window < DayOf(clock) - 2 * DAY)
    && (forall subject | subject in s.cooldowns :: CooldownIn(h, subject) == Some(s.cooldowns[subject]))
    && (forall subject | subject !in s.cooldowns ::
          CooldownIn(h, subject).Some? ==> CooldownIn(h, subject).value.nextAllowed < clock - DAY)
  }

  lemma EmptyAgrees(clock: nat)
    ensures Agrees(State(map[], map[]), [], clock)
  {
  }

  lemma DaysAscend(a: nat, b: nat)
    requires a <= b
    ensures DayOf(a) <= DayOf(b) <= MinuteOf(b) <= b
  {
  }

  /** The two limiters give the same answer to a reservation made no earlier than the clock. */
  lemma SameDecision(s: State, h: seq<Entry>, clock: nat, r: Reservation)
    requires Agrees(s, h, clock) && clock <= r.now
    ensures Decide(r, TallyOf(s.counters), Lookup(s.cooldowns, r.subject)) == ReferenceDecide(h, r)
  {
    DaysAscend(clock, r.now);
    var checks := Checks(r);
    forall i | 0 <= i < |checks|
      ensures TallyOf(s.counters)(checks[i].scope, checks[i].window) == TallyIn(h)(checks[i].scope, checks[i].window)
    {
      assert DayOf(clock) <= checks[i].window;
    }
    SameExceeded(checks, TallyOf(s.counters), TallyIn(h));
  }

  lemma {:induction false} SameExceeded(checks: seq<Check>, a: Tally, b: Tally)
    requires forall i | 0 <= i < |checks| :: a(checks[i].scope, checks[i].window) == b(checks[i].scope, checks[i].window)
    ensures FirstExceeded(checks, a) == FirstExceeded(checks, b)
  {
    if checks != [] { SameExceeded(checks[1..], a, b); }
  }

  // ---------------------------------------------------------------- accepting

  function CheckCounts(checks: seq<Check>, scope: Scope, window: nat): nat {
    if checks == [] then 0
    else (if checks[0].scope == scope && checks[0].window == window then 1 else 0) + CheckCounts(checks[1..], scope, window)
  }

  /** Counting adds one to exactly the counters gone through. */
  lemma {:induction false} CountedTally(counters: map<(Scope, nat), nat>, checks: seq<Check>, scope: Scope, window: nat)
    ensures TallyOf(Counted(counters, checks))(scope, window) == TallyOf(counters)(scope, window) + CheckCounts(checks, scope, window)
    ensures (scope, window) in Counted(counters, checks) <==> (scope, window) in counters || CheckCounts(checks, scope, window) > 0
    decreases checks
  {
    if checks != [] {
      var key := (checks[0].scope, checks[0].window);
      CountedTally(counters[key := TallyOf(counters)(checks[0].scope, checks[0].window) + 1], checks[1..], scope, window);
    }
  }

  /** The four counters of a reservation are the scopes and windows it counts in. */
  lemma ChecksCount(r: Reservation, scope: Scope, window: nat)
    ensures CheckCounts(Checks(r), scope, window) == if CountsIn(r, scope, window) then 1 else 0
  {
    var checks := Checks(r);
    var last := [checks[3]];
    var two := [checks[2], checks[3]];
    var three := [checks[1], checks[2], checks[3]];
    assert last[1..] == [] && two[1..] == last && three[1..] == two && checks[1..] == three;
    assert CheckCounts([], scope, window) == 0;
    assert CheckCounts(last, scope, window) == if last[0].scope == scope && last[0].window == window then 1 else 0;
    assert CheckCounts(two, scope, window) == (if two[0].scope == scope && two[0].window == window then 1 else 0) + CheckCounts(last, scope, window);
  }

  lemma CountAppend(h: seq<Entry>, e: Entry, scope: Scope, window: nat)
    ensures Count(h + [e], scope, window) == Count(h, scope, window) + if e.Reserved? && CountsIn(e.r, scope, window) then 1 else 0
  {
    assert (h + [e])[..|h|] == h;
  }

  lemma CooldownAppend(h: seq<Entry>, e: Entry, s: Subject)
    ensures var before := CooldownIn(h, s);
      CooldownIn(h + [e], s) ==
      if e.r.subject != s then before
      else if e.Reserved? then Some(Cooldown(e.r.now + e.r.cooldown, e.r.now))
      else if ReleaseValid(e.r) && before == Some(Cooldown(e.r.now + e.r.cooldown, e.r.now)) then None
      else before
  {
    assert (h + [e])[..|h|] == h;
  }

  /** What is out of reach stays out of reach. */
  lemma AgreesLater(s: State, h: seq<Entry>, clock: nat, later: nat)
    requires Agrees(s, h, clock) && clock <= later
    ensures Agrees(s, h, later)
  {
    DaysAscend(clock, later);
  }

  lemma CountersAgree(s: State, h: seq<Entry>, clock: nat, r: Reservation, key: (Scope, nat))
    requires Agrees(s, h, clock) && clock <= r.now
    ensures var after := PurgedCounters(Counted(s.counters, Checks(r)), r.now);
      && (key in after ==> after[key] == Count(h + [Reserved(r)], key.0, key.1))
      && (key !in after ==> Count(h + [Reserved(r)], key.0, key.1) == 0 || key.1 < DayOf(r.now) - 2 * DAY)
  {
    DaysAscend(clock, r.now);
    CountedTally(s.counters, Checks(r), key.0, key.1);
    ChecksCount(r, key.0, key.1);
    CountAppend(h, Reserved(r), key.0, key.1);
    assert (key.0, key.1) == key;
    if CountsIn(r, key.0, key.1) && key !in s.counters {
      assert Count(h, key.0, key.1) == 0 || key.1 < DayOf(clock) - 2 * DAY;
    }
  }

  lemma CooldownsAgree(s: State, h: seq<Entry>, clock: nat, r: Reservation, subject: Subject)
    requires Agrees(s, h, clock) && clock <= r.now && r.cooldown > 0
    ensures var after := PurgedCooldowns(s.cooldowns[r.subject := Cooldown(r.now + r.cooldown, r.now)], r.now);
      var reference := CooldownIn(h + [Reserved(r)], subject);
      && (subject in after ==> reference == Some(after[subject]))
      && (subject !in after ==> reference.Some? ==> reference.value.nextAllowed < r.now - DAY)
  {
    CooldownAppend(h, Reserved(r), subject);
  }

  lemma AcceptedIsValid(r: Reservation, tally: Tally, cooldown: Option<Cooldown>)
    requires Decide(r, tally, cooldown).Accepted?
    ensures ValidReservation(r)
  {
  }

  /** One reservation, by both limiters. */
  lemma ReserveRefines(s: State, h: seq<Entry>, clock: nat, r: Reservation)
    requires Agrees(s, h, clock) && clock <= r.now
    ensures Reserve(s, r).1 == ReferenceDecide(h, r)
    ensures Agrees(Reserve(s, r).0, ReferenceReserve(h, r), r.now)
  {
    hide Agrees, ReferenceDecide, Decide, Checks, Counted, PurgedCounters, PurgedCooldowns;
    SameDecision(s, h, clock, r);
    AgreesLater(s, h, clock, r.now);
    if Reserve(s, r).1.Accepted? {
      AcceptedIsValid(r, TallyOf(s.counters), Lookup(s.cooldowns, r.subject));
      AcceptedAgrees(s, h, clock, r);
    }
  }

  lemma AcceptedAgrees(s: State, h: seq<Entry>, clock: nat, r: Reservation)
    requires Agrees(s, h, clock) && clock <= r.now && r.cooldown > 0
    ensures Agrees(State(PurgedCounters(Counted(s.counters, Checks(r)), r.now),
                         PurgedCooldowns(s.cooldowns[r.subject := Cooldown(r.now + r.cooldown, r.now)], r.now)),
                   h + [Reserved(r)], r.now)
  {
    var counters := PurgedCounters(Counted(s.counters, Checks(r)), r.now);
    var cooldowns := PurgedCooldowns(s.cooldowns[r.subject := Cooldown(r.now + r.cooldown, r.now)], r.now);
    forall key: (Scope, nat)
      ensures key in counters ==> counters[key] == Count(h + [Reserved(r)], key.0, key.1)
      ensures key !in counters ==> Count(h + [Reserved(r)], key.0, key.1) == 0 || key.1 < DayOf(r.now) - 2 * DAY
    {
      CountersAgree(s, h, clock, r, key);
    }
    forall subject
      ensures subject in cooldowns ==> CooldownIn(h + [Reserved(r)], subject) == Some(cooldowns[subject])
      ensures subject !in cooldowns ==> CooldownIn(h + [Reserved(r)], subject).Some? ==>
                CooldownIn(h + [Reserved(r)], subject).value.nextAllowed < r.now - DAY
    {
      CooldownsAgree(s, h, clock, r, subject);
    }
    hide Checks, Counted, PurgedCounters, PurgedCooldowns, Count, CooldownIn;
  }

  /** One release, at any time. */
  lemma ReleaseRefines(s: State, h: seq<Entry>, clock: nat, r: Reservation)
    requires Agrees(s, h, clock)
    ensures Agrees(Release(s, r), h + [Released(r)], clock)
  {
    var after := Release(s, r);
    forall scope, window ensures Count(h + [Released(r)], scope, window) == Count(h, scope, window) {
      CountAppend(h, Released(r), scope, window);
    }
    forall subject
      ensures subject in after.cooldowns ==> CooldownIn(h + [Released(r)], subject) == Some(after.cooldowns[subject])
      ensures subject !in after.cooldowns ==> CooldownIn(h + [Released(r)], subject).Some? ==>
                CooldownIn(h + [Released(r)], subject).value.nextAllowed < clock - DAY
    {
      CooldownAppend(h, Released(r), subject);
    }
  }

  // ---------------------------------------------------------------- runs

  datatype Command = DoReserve(r: Reservation) | DoRelease(r: Reservation)

  /** The clock of the reservations never goes back. */
  predicate Chronological(commands: seq<Command>, clock: nat) {
    commands == [] ||
    if commands[0].DoRelease? then Chronological(commands[1..], clock)
    else clock <= commands[0].r.now && Chronological(commands[1..], commands[0].r.now)
  }

  function Outcomes(s: State, commands: seq<Command>): seq<Outcome>
    decreases commands
  {
    if commands == [] then []
    else match commands[0]
      case DoReserve(r) => [Reserve(s, r).1] + Outcomes(Reserve(s, r).0, commands[1..])
      case DoRelease(r) => Outcomes(Release(s, r), commands[1..])
  }

  function ReferenceOutcomes(h: seq<Entry>, commands: seq<Command>): seq<Outcome>
    decreases commands
  {
    if commands == [] then []
    else match commands[0]
      case DoReserve(r) => [ReferenceDecide(h, r)] + ReferenceOutcomes(ReferenceReserve(h, r), commands[1..])
      case DoRelease(r) => ReferenceOutcomes(h + [Released(r)], commands[1..])
  }

  /** Purging loses no decision: over any run with a clock that never goes back, the purging
      limiter answers every reservation as the one that remembers everything. */
  lemma {:induction false} RunRefines(s: State, h: seq<Entry>, clock: nat, commands: seq<Command>)
    requires Agrees(s, h, clock) && Chronological(commands, clock)
    ensures Outcomes(s, commands) == ReferenceOutcomes(h, commands)
    decreases commands
  {
    hide Agrees, Reserve, Release, ReferenceDecide, ReferenceReserve;
    if commands != [] {
      match commands[0]
      case DoReserve(r) =>
        ReserveRefines(s, h, clock, r);
        RunRefines(Reserve(s, r).0, ReferenceReserve(h, r), r.now, commands[1..]);
      case DoRelease(r) =>
        ReleaseRefines(s, h, clock, r);
        RunRefines(Release(s, r), h + [Released(r)], clock, commands[1..]);
    }
  }

  // ---------------------------------------------------------------- limits

  /** A history every reservation of which was accepted in its time, on a clock that does not go
      back, within the same limits. */
  predicate AcceptedInTime(h: seq<Entry>, limits: Limits) {
    h == [] ||
    var last := h[|h| - 1];
    var before := h[..|h| - 1];
    AcceptedInTime(before, limits) &&
    (last.Reserved? ==> last.r.limits == limits && ReferenceDecide(before, last.r).Accepted?)
  }

  function LimitOf(limits: Limits, scope: Scope): int {
    match scope
    case DeploymentMinute => limits.deploymentMinute
    case ActorMinute(_) => limits.actorMinute
    case DeploymentDay => limits.deploymentDay
    case ActorDay(_) => limits.actorDay
  }

  lemma PassedChecks(checks: seq<Check>, tally: Tally, i: nat)
    requires i < |checks| && FirstExceeded(checks, tally).None?
    ensures tally(checks[i].scope, checks[i].window) + 1 <= checks[i].limit
  {
    if i > 0 { PassedChecks(checks[1..], tally, i - 1); }
  }

  /** Committed reservations never exceed a limit, in any minute or day, for the deployment or
      any actor. */
  lemma {:induction false} NeverOverLimit(h: seq<Entry>, limits: Limits, scope: Scope, window: nat)
    requires AcceptedInTime(h, limits)
    ensures Count(h, scope, window) == 0 || Count(h, scope, window) <= LimitOf(limits, scope)
  {
    if h != [] {
      var last := h[|h| - 1];
      var before := h[..|h| - 1];
      NeverOverLimit(before, limits, scope, window);
      if last.Reserved? && CountsIn(last.r, scope, window) {
        var i: nat := match scope case DeploymentMinute => 0 case ActorMinute(_) => 1 case DeploymentDay => 2 case ActorDay(_) => 3;
        PassedChecks(Checks(last.r), TallyIn(before), i);
      }
    }
  }

  /** What the tables accepted and released over a run, in order. */
  function Committed(s: State, commands: seq<Command>): seq<Entry>
    decreases commands
  {
    if commands == [] then []
    else match commands[0]
      case DoReserve(r) => (if Reserve(s, r).1.Accepted? then [Reserved(r)] else []) + Committed(Reserve(s, r).0, commands[1..])
      case DoRelease(r) => [Released(r)] + Committed(Release(s, r), commands[1..])
  }

  predicate SameLimits(commands: seq<Command>, limits: Limits) {
    forall i | 0 <= i < |commands| && commands[i].DoReserve? :: commands[i].r.limits == limits
  }

  lemma AppendAccepted(h: seq<Entry>, e: Entry, limits: Limits)
    requires AcceptedInTime(h, limits)
    requires e.Reserved? ==> e.r.limits == limits && ReferenceDecide(h, e.r).Accepted?
    ensures AcceptedInTime(h + [e], limits)
  {
    assert (h + [e])[..|h|] == h;
  }

  lemma {:induction false} RunIsAcceptedInTime(s: State, h: seq<Entry>, clock: nat, commands: seq<Command>, limits: Limits)
    requires Agrees(s, h, clock) && Chronological(commands, clock) && SameLimits(commands, limits) && AcceptedInTime(h, limits)
    ensures AcceptedInTime(h + Committed(s, commands), limits)
    decreases commands
  {
    hide Agrees, Reserve, Release, ReferenceDecide, AcceptedInTime;
    if commands == [] {
      assert h + [] == h;
    } else {
      match commands[0]
      case DoReserve(r) =>
        ReserveRefines(s, h, clock, r);
        var next := Reserve(s, r).0;
        if Reserve(s, r).1.Accepted? {
          AppendAccepted(h, Reserved(r), limits);
          RunIsAcceptedInTime(next, h + [Reserved(r)], r.now, commands[1..], limits);
          assert h + ([Reserved(r)] + Committed(next, commands[1..])) == h + [Reserved(r)] + Committed(next, commands[1..]);
        } else {
          RunIsAcceptedInTime(next, h, r.now, commands[1..], limits);
          assert [] + Committed(next, commands[1..]) == Committed(next, commands[1..]);
        }
      case DoRelease(r) =>
        ReleaseRefines(s, h, clock, r);
        AppendAccepted(h, Released(r), limits);
        RunIsAcceptedInTime(Release(s, r), h + [Released(r)], clock, commands[1..], limits);
        assert h + ([Released(r)] + Committed(Release(s, r), commands[1..])) == h + [Released(r)] + Committed(Release(s, r), commands[1..]);
    }
  }

  /** Over any run from empty tables with a clock that never goes back, the purging limiter
      accepts no more reservations in a minute or day than the limits allow. */
  lemma TablesNeverOverLimit(commands: seq<Command>, clock: nat, limits: Limits, scope: Scope, window: nat)
    requires Chronological(commands, clock) && SameLimits(commands, limits)
    ensures var accepted := Count(Committed(State(map[], map[]), commands), scope, window);
      accepted == 0 || accepted <= LimitOf(limits, scope)
  {
    EmptyAgrees(clock);
    RunIsAcceptedInTime(State(map[], map[]), [], clock, commands, limits);
    var accepted := Committed(State(map[], map[]), commands);
    assert [] + accepted == accepted;
    NeverOverLimit(accepted, limits, scope, window);
  }

  // ---------------------------------------------------------------- late releases

  /** The tables after a run, and the time of its last reservation. */
  function AfterRun(s: State, commands: seq<Command>): State
    decreases commands
  {
    if commands == [] then s
    else match commands[0]
      case DoReserve(r) => AfterRun(Reserve(s, r).0, commands[1..])
      case DoRelease(r) => AfterRun(Release(s, r), commands[1..])
  }

  /** Nobody releases `o` in the run. */
  predicate NotReleased(o: Reservation, commands: seq<Command>) {
    forall i | 0 <= i < |commands| && commands[i].DoRelease? ::
      !(commands[i].r.subject == o.subject && commands[i].r.now == o.now && commands[i].r.cooldown == o.cooldown)
  }

  /** Another reservation of the subject is accepted in the run. */
  predicate AcceptedAgain(s: State, commands: seq<Command>, subject: Subject)
    decreases commands
  {
    commands != [] &&
    match commands[0]
      case DoReserve(r) => (r.subject == subject && Reserve(s, r).1.Accepted?) || AcceptedAgain(Reserve(s, r).0, commands[1..], subject)
      case DoRelease(r) => AcceptedAgain(Release(s, r), commands[1..], subject)
  }

  function RowOf(o: Reservation): Cooldown {
    Cooldown(o.now + o.cooldown, o.now)
  }

  /** The subject's row is the one `o` set, or a later one, or gone with time. */
  predicate Stands(s: State, o: Reservation, clock: nat) {
    var row := Lookup(s.cooldowns, o.subject);
    o.now <= clock && (row == Some(RowOf(o)) || (row.None? && o.now < clock) || (row.Some? && o.now < row.value.updatedAt <= clock))
  }

  predicate Newer(s: State, o: Reservation) {
    var row := Lookup(s.cooldowns, o.subject);
    row.None? || o.now < row.value.updatedAt
  }

  lemma ReserveKeepsStanding(s: State, o: Reservation, clock: nat, r: Reservation)
    requires Stands(s, o, clock) && clock <= r.now && o.cooldown > 0
    ensures Stands(Reserve(s, r).0, o, r.now)
    ensures (r.subject == o.subject && Reserve(s, r).1.Accepted?) || (Newer(s, o) && o.now < clock) ==>
              Newer(Reserve(s, r).0, o) && o.now < r.now
  {
  }

  lemma ReleaseKeepsStanding(s: State, o: Reservation, clock: nat, r: Reservation)
    requires Stands(s, o, clock)
    requires !(r.subject == o.subject && r.now == o.now && r.cooldown == o.cooldown)
    ensures Stands(Release(s, r), o, clock)
    ensures Newer(s, o) ==> Newer(Release(s, r), o)
  {
  }

  lemma {:induction false} RunKeepsStanding(s: State, o: Reservation, clock: nat, commands: seq<Command>)
    requires Stands(s, o, clock) && o.cooldown > 0 && Chronological(commands, clock) && NotReleased(o, commands)
    ensures AcceptedAgain(s, commands, o.subject) || (Newer(s, o) && o.now < clock) ==> Newer(AfterRun(s, commands), o)
    decreases commands
  {
    hide Reserve, Release, Stands, Newer;
    if commands != [] {
      match commands[0]
      case DoReserve(r) =>
        ReserveKeepsStanding(s, o, clock, r);
        RunKeepsStanding(Reserve(s, r).0, o, r.now, commands[1..]);
      case DoRelease(r) =>
        ReleaseKeepsStanding(s, o, clock, r);
        RunKeepsStanding(Release(s, r), o, clock, commands[1..]);
    }
  }

  lemma ReserveStands(s: State, o: Reservation)
    requires Reserve(s, o).1.Accepted?
    ensures o.cooldown > 0 && Stands(Reserve(s, o).0, o, o.now)
  {
  }

  /** A late release never removes a newer reservation: in any run of the tables, when `o` is
      released for the first time, and its subject was reserved again meanwhile, the release
      changes nothing. */
  lemma LateReleaseKeepsNewer(s: State, o: Reservation, commands: seq<Command>)
    requires Reserve(s, o).1.Accepted? && Chronological(commands, o.now) && NotReleased(o, commands)
    requires AcceptedAgain(Reserve(s, o).0, commands, o.subject)
    ensures var after := AfterRun(Reserve(s, o).0, commands); Release(after, o) == after
  {
    ReserveStands(s, o);
    RunKeepsStanding(Reserve(s, o).0, o, o.now, commands);
  }

  /** Only the first release is safe, so the service releases a reservation at most once: reserve,
      release and reserve again within one microsecond, with both reservations accepted, and
      releasing the first one twice removes the second one. */
  lemma SecondReleaseCanRemoveNewer(r: Reservation)
    requires ValidReservation(r) && r.limits == Limits(9, 9, 9, 9)
    ensures var empty := State(map[], map[]);
      var released := Release(Reserve(empty, r).0, r);
      var again := Reserve(released, r);
      && Reserve(empty, r).1.Accepted? && again.1.Accepted?
      && r.subject in again.0.cooldowns && r.subject !in Release(again.0, r).cooldowns
  {
    var empty := State(map[], map[]);
    FewAreAccepted(empty.counters, r);
    var first := Reserve(empty, r).0;
    forall i | 0 <= i < 4
      ensures TallyOf(first.counters)(Checks(r)[i].scope, Checks(r)[i].window) <= 1
    {
      CountedTally(empty.counters, Checks(r), Checks(r)[i].scope, Checks(r)[i].window);
      ChecksCount(r, Checks(r)[i].scope, Checks(r)[i].window);
    }
    FewAreAccepted(first.counters, r);
  }

  lemma FewAreAccepted(counters: map<(Scope, nat), nat>, r: Reservation)
    requires ValidReservation(r) && r.limits == Limits(9, 9, 9, 9)
    requires forall i | 0 <= i < 4 :: TallyOf(counters)(Checks(r)[i].scope, Checks(r)[i].window) <= 1
    ensures FirstExceeded(Checks(r), TallyOf(counters)).None?
  {
    NoneExceeded(Checks(r), TallyOf(counters));
  }

  lemma {:induction false} NoneExceeded(checks: seq<Check>, tally: Tally)
    requires forall i | 0 <= i < |checks| :: tally(checks[i].scope, checks[i].window) + 1 <= checks[i].limit
    ensures FirstExceeded(checks, tally).None?
  {
    if checks != [] { NoneExceeded(checks[1..], tally); }
  }

  // ---------------------------------------------------------------- the tables

  class Repository {
    var counters: map<(Scope, nat), nat>
    var cooldowns: map<Subject, Cooldown>

    constructor ()
      ensures Stored() == State(map[], map[])
    {
      counters, cooldowns := map[], map[];
    }

    function Stored(): State
      reads this
    {
      State(counters, cooldowns)
    }

    /** The loop over the checks: each counter goes up by one, and the first one over its limit
        is reported. */
    method CountAll(checks: seq<Check>) returns (tx: map<(Scope, nat), nat>, exceeded: Option<int>)
      requires DistinctWindows(checks)
      ensures exceeded == FirstExceeded(checks, TallyOf(counters))
      ensures exceeded.None? ==> tx == Counted(counters, checks)
    {
      tx := counters;
      var i := 0;
      while i < |checks|
        invariant 0 <= i <= |checks|
        invariant Counted(counters, checks) == Counted(tx, checks[i..])
        invariant FirstExceeded(checks, TallyOf(counters)) == FirstExceeded(checks[i..], TallyOf(counters))
        invariant forall k | i <= k < |checks| :: TallyOf(tx)(checks[k].scope, checks[k].window) == TallyOf(counters)(checks[k].scope, checks[k].window)
      {
        var check := checks[i];
        var key := (check.scope, check.window);
        var count := if key in tx then tx[key] + 1 else 1;
        tx := tx[key := count];
        assert checks[i..][1..] == checks[i + 1..] && checks[i..][0] == check;
        if count > check.limit { return tx, Some(check.retryAfter); }
        i := i + 1;
      }
      assert checks[|checks|..] == [];
      return tx, None;
    }

    method ReserveTranslation(r: Reservation) returns (outcome: Outcome)
      modifies this
      ensures (Stored(), outcome) == Reserve(old(Stored()), r)
      ensures !outcome.Accepted? ==> Stored() == old(Stored())
    {
      if !ValidReservation(r) { return Refused; }
      var tx, exceeded := CountAll(Checks(r));
      if exceeded.Some? { return Limited(exceeded.value); }
      if r.subject in cooldowns && cooldowns[r.subject].nextAllowed > r.now {
        return Limited(cooldowns[r.subject].nextAllowed - r.now);
      }
      cooldowns := cooldowns[r.subject := Cooldown(r.now + r.cooldown, r.now)];
      counters := PurgedCounters(tx, r.now);
      cooldowns := PurgedCooldowns(cooldowns, r.now);
      return Accepted;
    }

    method ReleaseTranslation(r: Reservation) returns (outcome: Outcome)
      modifies this
      ensures Stored() == Release(old(Stored()), r)
      ensures outcome == if ReleaseValid(r) then Accepted else Refused
    {
      if !ReleaseValid(r) { return Refused; }
      if r.subject in cooldowns && cooldowns[r.subject] == Cooldown(r.now + r.cooldown, r.now) {
        cooldowns := cooldowns - {r.subject};
      }
      return Accepted;
    }
  }
}
