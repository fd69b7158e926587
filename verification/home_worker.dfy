/** The worker's own control flow: one call of processNext on a Home event, statement by
    statement, with the remote service's and the database's replies as inputs. An undisturbed
    call is shown to be a run of the protocol in `publication_worker.dfy`, so everything proved
    there about runs holds of the calls. */
module HomeWorker {
  import opened ContentModel
  import opened PageGroup
  import opened PageGroupInvariants
  import opened PageGroupHistory
  import opened PublicationWorker

  /** What the outside answers during one call. */
  datatype Replies = Replies(
    asset: AssetReply,
    grant: Fault,
    complete: Fault,
    confirmed: bool,
    compensate: Fault,
    revoke: Fault,
    acknowledge: Fault,
    settle: Fault)

  lemma {:induction false} RunAppends(r: Rules, max: nat, s: System, first: seq<Step>, second: seq<Step>)
    ensures Run(r, max, s, first + second) == Run(r, max, Run(r, max, s, first), second)
    decreases first
  {
    if first == [] {
      assert [] + second == second;
    } else {
      assert (first + second)[0] == first[0] && (first + second)[1..] == first[1..] + second;
      RunAppends(r, max, Next(r, max, s, first[0]), first[1..], second);
    }
  }

  lemma RunOne(r: Rules, max: nat, s: System, step: Step)
    ensures Run(r, max, s, [step]) == Next(r, max, s, step)
  {
    assert [step][1..] == [];
  }

  lemma CompletionKeepsAttempts(r: Rules, db: Db, v: Version)
    requires CompleteHomePublish(r, db, v, v).Ok?
    ensures PublishKey(v) in db.outbox
    ensures var after := CompleteHomePublish(r, db, v, v).value;
      PublishKey(v) in after.outbox && after.outbox[PublishKey(v)].attempts == db.outbox[PublishKey(v)].attempts
  {
    hide GoLive, LoadPending, MembersCurrent;
    if DeliveredAt(db.outbox, v) {
      RepeatedCompletion(r, db, v);
    } else {
      CompletionSteps(r, db, v);
    }
  }

  lemma FailureKeepsEvent(db: Db, v: Version)
    requires FailHomePublish(db, v, v).Ok?
    ensures PublishKey(v) in FailHomePublish(db, v, v).value.outbox
  {
  }

  /** What looking the asset up, or creating the grant, makes of the only attempt. */
  lemma AssetStops(max: nat, s: System, key: EventKey, reply: AssetReply, failure: Failure)
    requires key in s.db.outbox && key.PublishKey? && s.attempts == map[key := Attempt(Claimed, false)]
    requires match reply
      case Ready => false
      case Transient => failure.OrdinaryError?
      case Terminal => failure.TerminalError?
      case NotReady(overdue) => failure == PendingError(overdue)
    ensures DoGetAsset(max, s, key, reply) ==
      s.(attempts := map[key := Attempt(Settling(Disposal(max, failure, s.db.outbox[key].attempts)), false)])
  {
    forall phase ensures s.attempts[key := Attempt(phase, false)] == map[key := Attempt(phase, false)] {}
  }

  lemma GrantIs(s: System, key: EventKey, fault: Fault)
    requires key in s.db.outbox && key.PublishKey? && s.attempts == map[key := Attempt(Claimed, false)]
    ensures DoCreateGrant(s, key, fault) == s.(
      granted := if fault.LostBefore? then s.granted else s.granted + {key.version},
      attempts := map[key := if fault.Fine? then Attempt(Granted, true) else Attempt(Settling(ToRetry), false)])
  {
    forall attempt: Attempt ensures s.attempts[key := attempt] == map[key := attempt] {}
  }

  /** A completion where the attempt on `key` is the only one. */
  lemma CompletionIs(r: Rules, max: nat, s: System, key: EventKey, fault: Fault)
    requires key in s.db.outbox && key.PublishKey? && s.attempts == map[key := Attempt(Granted, true)]
    ensures var after := DoComplete(r, max, s, key, fault);
      var committed := CompleteHomePublish(r, s.db, key.version, key.version);
      var failed := Attempt(if s.db.outbox[key].attempts < max then Settling(ToRetry) else Confirming, true);
      if fault.LostBefore? then after == s.(attempts := map[key := failed])
      else if committed.Err? then
        after == s.(attempts := map[key := if committed.error.Stale? then Attempt(Compensating, true) else failed])
      else
        after == s.(db := committed.value, attempts := if fault.Fine? then map[] else map[key := failed])
  {
    hide CompleteHomePublish;
    forall phase ensures s.attempts[key := Attempt(phase, true)] == map[key := Attempt(phase, true)] {}
    assert s.attempts - {key} == map[];
    var committed := CompleteHomePublish(r, s.db, key.version, key.version);
    if committed.Ok? { CompletionKeepsAttempts(r, s.db, key.version); }
  }

  class Worker {
    const rules: Rules
    const maxAttempts: nat
    var db: Db
    var granted: set<Grant>
    var revoked: set<Grant>
    ghost var dropped: set<Grant>

    constructor (rules: Rules, maxAttempts: nat, db: Db)
      ensures this.rules == rules && this.maxAttempts == maxAttempts && Idle() == System(db, {}, {}, map[], {})
    {
      this.rules := rules;
      this.maxAttempts := maxAttempts;
      this.db := db;
      granted := {};
      revoked := {};
      dropped := {};
    }

    /** The system between calls. */
    ghost function Idle(): System
      reads this
    {
      System(db, granted, revoked, map[], dropped)
    }

    /** The system while the call on `key` is at the given point. */
    ghost function During(key: EventKey, attempt: Attempt): System
      reads this
    {
      System(db, granted, revoked, map[key := attempt], dropped)
    }

    /** Where a handler leaves the attempt. */
    ghost function Left(key: EventKey, failure: Failure, holds: bool): System
      reads this
      requires key in db.outbox
    {
      if failure.NoError? then Idle()
      else During(key, Attempt(Settling(Disposal(maxAttempts, failure, db.outbox[key].attempts)), holds))
    }

    method WriteEvent(key: EventKey, status: EventStatus, attempts: nat)
      requires key in db.outbox
      modifies this`db
      ensures db == SetStatus(old(db), key, status, attempts)
    {
      db := db.(outbox := db.outbox[key := db.outbox[key].(status := status, attempts := attempts)]);
    }

    method ProcessNext(key: EventKey, replies: Replies) returns (ghost steps: seq<Step>)
      requires key in db.outbox && LiveEvent(db.outbox[key])
      modifies this
      ensures Idle() == Run(rules, maxAttempts, old(Idle()), steps)
      ensures old(SystemInv(rules, Idle())) ==> SystemInv(rules, Idle())
    {
      hide Inv, SystemInv, Run, DoSettle;
      ghost var start := Idle();
      WriteEvent(key, Processing, db.outbox[key].attempts + 1);
      steps := [Claim(key)];
      ghost var claimed := During(key, Attempt(Claimed, false));
      ClaimStarts(start, key, claimed);
      var failure: Failure;
      ghost var handled: seq<Step>;
      ghost var holds: bool;
      if key.PublishKey? {
        failure, handled, holds := PublishHome(key, replies);
      } else {
        failure, handled, holds := RevokeGrant(key, replies);
      }
      RunAppends(rules, maxAttempts, start, steps, handled);
      steps := steps + handled;
      if failure.NoError? {
        if SystemInv(rules, start) { RunKeeps(rules, maxAttempts, start, steps); }
        return;
      }
      ghost var before := Left(key, failure, holds);
      ghost var verdict := Disposal(maxAttempts, failure, db.outbox[key].attempts);
      var event := db.outbox[key];
      if failure.PendingError? {
        if failure.overdue { Fail(key, replies.settle); } else { Defer(key, replies.settle); }
      } else if failure.TerminalError? || (event.attempts >= maxAttempts && !failure.CompensationError?) {
        Fail(key, replies.settle);
      } else {
        Retry(key, replies.settle);
      }
      RunAppends(rules, maxAttempts, start, steps, [Settle(key, replies.settle)]);
      RunOne(rules, maxAttempts, before, Settle(key, replies.settle));
      steps := steps + [Settle(key, replies.settle)];
      if SystemInv(rules, start) { RunKeeps(rules, maxAttempts, start, steps); }
    }

    method PublishHome(key: EventKey, replies: Replies) returns (failure: Failure, ghost steps: seq<Step>, ghost holds: bool)
      requires key in db.outbox && key.PublishKey?
      modifies this
      ensures key in db.outbox && !failure.StaleError?
      ensures Left(key, failure, holds) == Run(rules, maxAttempts, old(During(key, Attempt(Claimed, false))), steps)
    {
      hide DoGetAsset, DoCreateGrant, DoCompensate, DoComplete, DoSettle, Apply, Run;
      ghost var start := During(key, Attempt(Claimed, false));
      holds := false;
      if !replies.asset.Ready? {
        steps := [GetAsset(key, replies.asset)];
        RunOne(rules, maxAttempts, start, steps[0]);
        match replies.asset {
          case Transient => failure := OrdinaryError;
          case Terminal => failure := TerminalError;
          case NotReady(overdue) => failure := PendingError(overdue);
        }
        AssetStops(maxAttempts, start, key, replies.asset, failure);
        return;
      }
      steps := [CreateGrant(key, replies.grant)];
      RunOne(rules, maxAttempts, start, steps[0]);
      GrantIs(start, key, replies.grant);
      if !replies.grant.LostBefore? { granted := granted + {key.version}; }
      if !replies.grant.Fine? { return CompensationError, steps, false; }
      holds := true;
      ghost var holding := During(key, Attempt(Granted, true));
      failure := CompleteContentPublish(key, replies.complete);
      RunOne(rules, maxAttempts, holding, Complete(key, replies.complete));
      RunAppends(rules, maxAttempts, start, steps, [Complete(key, replies.complete)]);
      steps := steps + [Complete(key, replies.complete)];
      if failure.NoError? { return; }
      ghost var handled: seq<Step>;
      failure, handled := HandleFailure(key, failure, replies);
      RunAppends(rules, maxAttempts, start, steps, handled);
      steps := steps + handled;
    }

    /** The completion of the publication as the worker sees it. */
    method CompleteContentPublish(key: EventKey, fault: Fault) returns (cause: Failure)
      requires key in db.outbox && key.PublishKey?
      modifies this`db
      ensures key in db.outbox && db.outbox[key].attempts == old(db).outbox[key].attempts
      ensures cause.NoError? || cause.OrdinaryError? || cause.StaleError?
      ensures (if cause.NoError? then Idle() else Stopped(key, cause)) ==
              DoComplete(rules, maxAttempts, old(During(key, Attempt(Granted, true))), key, fault)
    {
      hide CompleteHomePublish, DoComplete;
      CompletionIs(rules, maxAttempts, During(key, Attempt(Granted, true)), key, fault);
      if fault.LostBefore? { return OrdinaryError; }
      var committed := CompleteHomePublish(rules, db, key.version, key.version);
      if committed.Err? { return if committed.error.Stale? then StaleError else OrdinaryError; }
      CompletionKeepsAttempts(rules, db, key.version);
      db := committed.value;
      return if fault.LostAfter? then OrdinaryError else NoError;
    }

    /** The attempt a failed completion leaves behind. */
    ghost function Stopped(key: EventKey, cause: Failure): System
      reads this
      requires key in db.outbox
    {
      During(key, Attempt(
        if cause.StaleError? then Compensating
        else if db.outbox[key].attempts < maxAttempts then Settling(ToRetry)
        else Confirming, true))
    }

    /** handleContentPublishFailure */
    method HandleFailure(key: EventKey, cause: Failure, replies: Replies) returns (failure: Failure, ghost steps: seq<Step>)
      requires key in db.outbox && key.PublishKey? && (cause.OrdinaryError? || cause.StaleError?)
      modifies this`db
      ensures key in db.outbox && !failure.StaleError?
      ensures Left(key, failure, true) == Run(rules, maxAttempts, old(Stopped(key, cause)), steps)
    {
      hide DoCompensate, DoComplete, DoSettle, Apply, Run;
      ghost var start := Stopped(key, cause);
      steps := [];
      NoSteps(start);
      if !cause.StaleError? {
        if db.outbox[key].attempts < maxAttempts { return cause, []; }
        steps := [Confirm(key, replies.confirmed)];
        RunOne(rules, maxAttempts, start, steps[0]);
        if !replies.confirmed { return CompensationError, steps; }
        if db.outbox[key].status.Delivered? { return NoError, steps; }
      }
      ghost var compensating := During(key, Attempt(Compensating, true));
      assert Run(rules, maxAttempts, start, steps) == compensating by {
        assert start.attempts[key := Attempt(Compensating, true)] == compensating.attempts;
      }
      RunOne(rules, maxAttempts, compensating, Compensate(key, replies.compensate));
      RunAppends(rules, maxAttempts, start, steps, [Compensate(key, replies.compensate)]);
      steps := steps + [Compensate(key, replies.compensate)];
      failure := FailContentPublish(key, replies.compensate);
    }

    method FailContentPublish(key: EventKey, fault: Fault) returns (failure: Failure)
      requires key in db.outbox && key.PublishKey?
      modifies this`db
      ensures key in db.outbox && (failure.NoError? || failure.CompensationError?)
      ensures Left(key, failure, true) == DoCompensate(old(During(key, Attempt(Compensating, true))), key, fault)
    {
      hide FailHomePublish;
      if fault.LostBefore? { return CompensationError; }
      var failed := FailHomePublish(db, key.version, key.version);
      if failed.Err? { return CompensationError; }
      FailureKeepsEvent(db, key.version);
      db := failed.value;
      return if fault.LostAfter? then CompensationError else NoError;
    }

    method RevokeGrant(key: EventKey, replies: Replies) returns (failure: Failure, ghost steps: seq<Step>, ghost holds: bool)
      requires key in db.outbox && !key.PublishKey?
      modifies this
      ensures key in db.outbox && !failure.StaleError? && !holds
      ensures Left(key, failure, holds) == Run(rules, maxAttempts, old(During(key, Attempt(Claimed, false))), steps)
    {
      hide DoClaim, DoGetAsset, DoCreateGrant, DoConfirm, DoCompensate, DoComplete, DoAcknowledge, DoSettle, Apply, Run;
      ghost var start := During(key, Attempt(Claimed, false));
      holds := false;
      steps := [PublicationWorker.RevokeGrant(key, replies.revoke)];
      RunOne(rules, maxAttempts, start, steps[0]);
      if !replies.revoke.LostBefore? { revoked := revoked + {key.grant}; }
      if !replies.revoke.Fine? { return CompensationError, steps, false; }
      ghost var done := During(key, Attempt(Revoked, false));
      assert Run(rules, maxAttempts, start, steps) == done by {
        assert start.attempts[key := Attempt(Revoked, false)] == done.attempts;
      }
      RunOne(rules, maxAttempts, done, Acknowledge(key, replies.acknowledge));
      RunAppends(rules, maxAttempts, start, steps, [Acknowledge(key, replies.acknowledge)]);
      steps := steps + [Acknowledge(key, replies.acknowledge)];
      failure := AcknowledgeRevocation(key, replies.acknowledge);
    }

    /** Repository.Complete */
    method AcknowledgeRevocation(key: EventKey, fault: Fault) returns (failure: Failure)
      requires key in db.outbox
      modifies this`db
      ensures key in db.outbox && (failure.NoError? || failure.OrdinaryError?)
      ensures Left(key, failure, false) == DoAcknowledge(maxAttempts, old(During(key, Attempt(Revoked, false))), key, fault)
    {
      if !fault.LostBefore? { WriteEvent(key, Delivered, db.outbox[key].attempts); }
      return if fault.Fine? then NoError else OrdinaryError;
    }

    method Retry(key: EventKey, fault: Fault)
      requires key in db.outbox
      modifies this`db
      ensures forall holds :: Idle() == DoSettle(old(During(key, Attempt(Settling(ToRetry), holds))), key, fault)
    {
      if !fault.LostBefore? && db.outbox[key].status.Processing? { WriteEvent(key, Waiting, db.outbox[key].attempts); }
    }

    method Defer(key: EventKey, fault: Fault)
      requires key in db.outbox
      modifies this`db
      ensures forall holds :: Idle() == DoSettle(old(During(key, Attempt(Settling(ToDefer), holds))), key, fault)
    {
      if !fault.LostBefore? && db.outbox[key].status.Processing? {
        var attempts := db.outbox[key].attempts;
        WriteEvent(key, Waiting, if attempts == 0 then 0 else attempts - 1);
      }
    }

    method Fail(key: EventKey, fault: Fault)
      requires key in db.outbox
      modifies this`db, this`dropped
      ensures forall holds :: Idle() == DoSettle(old(During(key, Attempt(Settling(ToFail), holds))), key, fault)
    {
      if fault.LostBefore? { return; }
      if key.PublishKey? {
        var failed := FailPublication(db, key.version);
        if failed.Ok? {
          db := failed.value;
          dropped := dropped + {key.version};
        }
      } else {
        WriteEvent(key, FailedEvent, db.outbox[key].attempts);
      }
    }

    lemma NoSteps(s: System)
      ensures Run(rules, maxAttempts, s, []) == s
    {
    }

    lemma ClaimStarts(start: System, key: EventKey, claimed: System)
      requires key in start.db.outbox && LiveEvent(start.db.outbox[key]) && start.attempts == map[]
      requires claimed == System(SetStatus(start.db, key, Processing, start.db.outbox[key].attempts + 1),
                                 start.granted, start.revoked, map[key := Attempt(Claimed, false)], start.dropped)
      ensures Run(rules, maxAttempts, start, [Claim(key)]) == claimed
    {
      RunOne(rules, maxAttempts, start, Claim(key));
    }
  }
}
