/** The retry schedule is what the step protocol does: from a claim to the end of the attempt,
    whatever else happens in between, an event's status and its count of attempts change as
    `RetrySchedule.Processed` says. */
module RetryProtocol {
  import opened ContentModel
  import opened PageGroup
  import opened PageGroupInvariants
  import opened PageGroupHistory
  import opened PublicationWorker
  import Schedule = RetrySchedule
  import Bulletins
  import BulletinWorker
  import News

  /** The schedule's row says of an event what the outbox does. */
  predicate Tells(row: Schedule.EventRow, status: EventStatus, attempts: nat) {
    && row.attempts == attempts
    && (row.status.Pending? <==> status.Waiting?)
    && (row.status.Delivered? <==> status.Delivered?)
    && (row.status.Failed? <==> status.FailedEvent?)
  }

  predicate Agrees(row: Schedule.EventRow, event: Event) {
    Tells(row, event.status, event.attempts)
  }

  /** The errors the schedule knows; a pending error is overdue exactly past the deadline. */
  predicate Scheduled(failure: Failure, row: Schedule.EventRow, now: nat) {
    && (failure.OrdinaryError? || failure.TerminalError? || failure.PendingError?)
    && (failure.PendingError? ==> (failure.overdue <==> now - row.createdAt >= Schedule.DEADLINE))
  }

  function HandlingOf(failure: Failure): Schedule.Handling {
    match failure
    case PendingError(_) => Schedule.NotReady
    case TerminalError => Schedule.Terminal
    case _ => Schedule.Ordinary
  }

  /** The attempt on `key` goes on all through the run. */
  ghost predicate Ongoing(r: Rules, max: nat, s: System, steps: seq<Step>, key: EventKey) {
    forall i | 0 <= i <= |steps| :: key in Run(r, max, s, steps[..i]).attempts
  }

  // ---------------------------------------------------------------- what keeps the count

  predicate SameCount(before: Db, after: Db, key: EventKey) {
    key in before.outbox ==> key in after.outbox && after.outbox[key].attempts == before.outbox[key].attempts
  }

  /** While an attempt goes on, no step changes the count of its event. */
  lemma NextKeepsCount(r: Rules, max: nat, s: System, step: Step, key: EventKey)
    requires key in s.attempts && key in Next(r, max, s, step).attempts
    ensures SameCount(s.db, Next(r, max, s, step).db, key)
  {
    hide Apply, DoComplete, DoCompensate, DoSettle, DoAcknowledge;
    match step
    case Do(op) => if Apply(r, s.db, op).Ok? { ApplyAddsEvents(r, s.db, op); }
    case Complete(other, fault) => CompleteKeepsCount(r, max, s, other, fault, key);
    case Acknowledge(other, fault) => AcknowledgeKeepsCount(max, s, other, fault, key);
    case Compensate(other, fault) => CompensateKeepsCount(s, other, fault, key);
    case Settle(other, fault) => if other != key { SettleKeepsCount(s, other, fault, key); } else { SettleEnds(s, key, fault); }
    case _ =>
  }

  lemma CompleteKeepsCount(r: Rules, max: nat, s: System, other: EventKey, fault: Fault, key: EventKey)
    ensures SameCount(s.db, DoComplete(r, max, s, other, fault).db, key)
  {
    hide CompleteHomePublish;
    if other.PublishKey? && CompleteHomePublish(r, s.db, other.version, other.version).Ok? { CompletionKeepsCount(r, s.db, other.version, key); }
  }

  lemma AcknowledgeKeepsCount(max: nat, s: System, other: EventKey, fault: Fault, key: EventKey)
    ensures SameCount(s.db, DoAcknowledge(max, s, other, fault).db, key)
  {
  }

  lemma CompensateKeepsCount(s: System, other: EventKey, fault: Fault, key: EventKey)
    ensures SameCount(s.db, DoCompensate(s, other, fault).db, key)
  {
    hide FailHomePublish, FailPublication;
    if other.PublishKey? { FailureKeepsCount(s.db, other.version, key); }
  }

  lemma SettleKeepsCount(s: System, other: EventKey, fault: Fault, key: EventKey)
    requires other != key
    ensures SameCount(s.db, DoSettle(s, other, fault).db, key)
  {
    hide FailPublication;
    if other.PublishKey? { FailureKeepsCount(s.db, other.version, key); }
    if other in s.db.outbox { StatusKeepsCount(s.db, other, key); }
    hide SetStatus, SameCount;
  }

  lemma StatusKeepsCount(db: Db, other: EventKey, key: EventKey)
    requires other in db.outbox && other != key
    ensures forall status, attempts :: SameCount(db, SetStatus(db, other, status, attempts), key)
    ensures SameCount(db, db, key)
  {
  }

  /** Settling ends the attempt, or does nothing. */
  lemma SettleEnds(s: System, key: EventKey, fault: Fault)
    ensures key in DoSettle(s, key, fault).attempts ==> DoSettle(s, key, fault) == s
  {
    hide FailPublication;
  }

  lemma CompletionKeepsCount(r: Rules, db: Db, v: Version, key: EventKey)
    requires CompleteHomePublish(r, db, v, v).Ok?
    ensures SameCount(db, CompleteHomePublish(r, db, v, v).value, key)
  {
    if DeliveredAt(db.outbox, v) { RepeatedCompletion(r, db, v); } else { CompletionSteps(r, db, v); }
  }

  lemma FailureKeepsCount(db: Db, v: Version, key: EventKey)
    ensures FailPublication(db, v).Ok? ==> SameCount(db, FailPublication(db, v).value, key)
    ensures FailHomePublish(db, v, v).Ok? ==> SameCount(db, FailHomePublish(db, v, v).value, key)
  {
  }

  lemma {:induction false} RunKeepsCount(r: Rules, max: nat, s: System, steps: seq<Step>, key: EventKey)
    requires Ongoing(r, max, s, steps, key)
    ensures SameCount(s.db, Run(r, max, s, steps).db, key)
    decreases steps
  {
    hide Next;
    assert key in Run(r, max, s, steps[..0]).attempts;
    if steps != [] {
      var next := Next(r, max, s, steps[0]);
      forall i | 0 <= i <= |steps| - 1 ensures key in Run(r, max, next, steps[1..][..i]).attempts {
        assert steps[..i + 1][0] == steps[0] && steps[..i + 1][1..] == steps[1..][..i];
        assert key in Run(r, max, s, steps[..i + 1]).attempts;
      }
      assert key in Run(r, max, next, steps[1..][..0]).attempts;
      NextKeepsCount(r, max, s, steps[0], key);
      RunKeepsCount(r, max, next, steps[1..], key);
    }
  }

  // ---------------------------------------------------------------- one claim

  /** A claim on a live event, and then any run through which the attempt goes on. */
  ghost predicate Claims(r: Rules, max: nat, s: System, key: EventKey, during: seq<Step>, row: Schedule.EventRow) {
    && key in s.db.outbox && key !in s.attempts && LiveEvent(s.db.outbox[key])
    && row.status.Pending? && row.attempts == s.db.outbox[key].attempts
    && Ongoing(r, max, Next(r, max, s, Claim(key)), during, key)
  }

  function AfterClaim(r: Rules, max: nat, s: System, key: EventKey, during: seq<Step>): System {
    Run(r, max, Next(r, max, s, Claim(key)), during)
  }

  lemma ClaimCounts(r: Rules, max: nat, s: System, key: EventKey, during: seq<Step>, row: Schedule.EventRow)
    requires Claims(r, max, s, key, during, row)
    ensures var end := AfterClaim(r, max, s, key, during);
      key in end.attempts && key in end.db.outbox && end.db.outbox[key].attempts == row.attempts + 1
  {
    var claimed := Next(r, max, s, Claim(key));
    assert claimed.db.outbox[key].attempts == row.attempts + 1;
    RunKeepsCount(r, max, claimed, during, key);
    assert during[..|during|] == during;
  }

  /** An attempt that ends in an error the schedule knows leaves the event as scheduled. */
  lemma SettledAsScheduled(r: Rules, max: nat, s: System, key: EventKey, during: seq<Step>, failure: Failure,
                           row: Schedule.EventRow, now: nat)
    requires SystemInv(r, s) && Claims(r, max, s, key, during, row) && Scheduled(failure, row, now)
    requires var end := AfterClaim(r, max, s, key, during);
      Settles(end, key, Disposal(max, failure, row.attempts + 1)) && end.db.outbox[key].status.Processing?
    ensures var after := Next(r, max, AfterClaim(r, max, s, key, during), Settle(key, Fine));
      && key !in after.attempts && key in after.db.outbox
      && Agrees(Schedule.Processed(max, row, Schedule.Claim(now, HandlingOf(failure))), after.db.outbox[key])
  {
    hide Run, Ongoing, SystemInv, Next;
    ClaimCounts(r, max, s, key, during, row);
    NextKeeps(r, max, s, Claim(key));
    RunKeeps(r, max, Next(r, max, s, Claim(key)), during);
    SettleDoes(r, max, AfterClaim(r, max, s, key, during), key);
  }

  predicate Settles(s: System, key: EventKey, verdict: Verdict) {
    At(s, key, Settling(verdict))
  }

  lemma SettleDoes(r: Rules, max: nat, s: System, key: EventKey)
    requires SystemInv(r, s) && key in s.attempts && s.attempts[key].phase.Settling? && key in s.db.outbox && s.db.outbox[key].status.Processing?
    ensures var verdict, attempts := s.attempts[key].phase.verdict, s.db.outbox[key].attempts;
      var after := Next(r, max, s, Settle(key, Fine));
      && key !in after.attempts && key in after.db.outbox
      && after.db.outbox[key].attempts == (if verdict.ToDefer? then Schedule.OneLess(attempts) else attempts)
      && (if verdict.ToFail? then after.db.outbox[key].status.FailedEvent? else after.db.outbox[key].status.Waiting?)
  {
    hide BannerInv, LedgerInv, PageInv, ChildrenInv, ManifestsInv, GrantInv, Frozen;
    if key.PublishKey? { PublishEventAt(r, s.db, key.version); }
  }

  /** So does one whose event was settled by a completion or a compensation. */
  lemma EndedAsScheduled(r: Rules, max: nat, s: System, key: EventKey, during: seq<Step>, row: Schedule.EventRow, now: nat)
    requires Claims(r, max, s, key, during, row)
    ensures var end := AfterClaim(r, max, s, key, during);
      && key in end.db.outbox
      && (end.db.outbox[key].status.Delivered? ==>
            Agrees(Schedule.Processed(max, row, Schedule.Claim(now, Schedule.Success)), end.db.outbox[key]))
      && (end.db.outbox[key].status.FailedEvent? ==>
            Agrees(Schedule.Processed(max, row, Schedule.Claim(now, Schedule.Terminal)), end.db.outbox[key]))
  {
    hide Run, Ongoing, Next;
    ClaimCounts(r, max, s, key, during, row);
  }

  // ---------------------------------------------------------------- bulletins and news

  /** The same of bulletins: claim an event, and let the attempt on it settle in any later state
      in which the event is as the claim left it. */
  lemma BulletinSettledAsScheduled(max: nat, s: BulletinWorker.System, later: BulletinWorker.System, key: Bulletins.EventKey,
                                   failure: Failure, row: Schedule.EventRow, now: nat)
    requires key in s.b.outbox && key !in s.attempts && Bulletins.LiveEvent(s.b.outbox[key])
    requires row.status.Pending? && row.attempts == s.b.outbox[key].attempts && Scheduled(failure, row, now)
    requires key in later.b.outbox && later.b.outbox[key] == BulletinWorker.DoClaim(s, key).b.outbox[key]
    requires BulletinWorker.At(later, key, BulletinWorker.Settling(Disposal(max, failure, row.attempts + 1)))
    ensures var after := BulletinWorker.DoSettle(later, key, Fine);
      && key !in after.attempts && key in after.b.outbox
      && Tells(Schedule.Processed(max, row, Schedule.Claim(now, HandlingOf(failure))),
               after.b.outbox[key].status, after.b.outbox[key].attempts)
  {
    hide Bulletins.Fail, Bulletins.Release;
    FailMarks(later.b, key);
    ReleaseMarks(later.b, key);
  }

  lemma FailMarks(b: Bulletins.Tables, key: Bulletins.EventKey)
    requires key in b.outbox
    ensures Bulletins.Fail(b, key).outbox == b.outbox[key := b.outbox[key].(status := FailedEvent)]
  {
  }

  lemma ReleaseMarks(b: Bulletins.Tables, key: Bulletins.EventKey)
    requires key in b.outbox && b.outbox[key].status.Processing?
    ensures forall defers :: Bulletins.Release(b, key, defers).outbox == b.outbox[key := b.outbox[key].(
        status := Waiting, attempts := if defers then Schedule.OneLess(b.outbox[key].attempts) else b.outbox[key].attempts)]
  {
  }

  /** And of news. */
  lemma NewsSettledAsScheduled(max: nat, t: News.Track, later: News.Track, key: News.Key,
                               failure: Failure, row: Schedule.EventRow, now: nat)
    requires key in t.item.outbox && key !in t.attempts && News.LiveEvent(t.item.outbox[key])
    requires row.status.Pending? && row.attempts == t.item.outbox[key].attempts && Scheduled(failure, row, now)
    requires key in later.item.outbox && later.item.outbox[key] == News.DoClaim(t, key).item.outbox[key]
    requires News.At(later, key, News.Settling(Disposal(max, failure, row.attempts + 1)))
    ensures var after := News.DoSettle(later, key, Fine);
      && key !in after.attempts && key in after.item.outbox
      && Tells(Schedule.Processed(max, row, Schedule.Claim(now, HandlingOf(failure))),
               after.item.outbox[key].status, after.item.outbox[key].attempts)
  {
  }
}
