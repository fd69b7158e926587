/** The worker's own control flow on bulletin events: one call of processNext, statement by
    statement, with the replies of the remote services and of the database as inputs. An
    undisturbed call is shown to be a run of the steps in `bulletin_worker.dfy`. */
module BulletinDispatch {
  import opened ContentModel
  import opened Bulletins
  import opened BulletinWorker

  /** What the outside answers during one call. */
  datatype Replies = Replies(
    asset: AssetReply,
    notified: AssetReply,
    grant: Fault,
    revoke: Fault,
    remove: Fault,
    complete: Fault,
    confirmed: bool,
    compensate: Fault,
    settle: Fault)

  lemma {:induction false} RunAppends(max: nat, s: System, first: seq<Step>, second: seq<Step>)
    ensures Run(max, s, first + second) == Run(max, Run(max, s, first), second)
    decreases first
  {
    hide Next;
    if first == [] {
      assert [] + second == second;
    } else {
      assert (first + second)[0] == first[0] && (first + second)[1..] == first[1..] + second;
      RunAppends(max, Next(max, s, first[0]), first[1..], second);
    }
  }

  lemma RunOne(max: nat, s: System, steps: seq<Step>, step: Step)
    ensures Run(max, s, []) == s
    ensures Run(max, s, [step]) == Next(max, s, step)
    ensures Run(max, s, steps + [step]) == Next(max, Run(max, s, steps), step)
  {
    hide Next;
    RunAppends(max, s, steps, [step]);
    assert [step][1..] == [];
  }

  lemma FinishedKeepsAttempts(b: Tables, key: EventKey)
    requires key in b.outbox && Finished(b, key).Ok?
    ensures var after := Finished(b, key).value.outbox; key in after && after[key].attempts == b.outbox[key].attempts
  {
  }

  lemma FailedKeepsEvent(b: Tables, key: EventKey)
    requires key in b.outbox && key.PublishKey?
    ensures key in FailPublish(b, key.issue, key.locale, key.version).outbox
  {
  }

  /** What revoking the event's grant makes of the only attempt. */
  lemma RevocationIs(s: System, key: EventKey, fault: Fault)
    requires key in s.b.outbox && (key.UnpublishKey? || key.RevokeKey?) && s.attempts == map[key := Attempt(Claimed, false)]
    ensures DoRevokeGrant(s, key, fault) ==
      if s.b.outbox[key].grant.None? then s.(attempts := map[key := Attempt(Settling(ToFail), false)])
      else s.(revoked := if fault.LostBefore? then s.revoked else s.revoked + {s.b.outbox[key].grant.value},
              attempts := map[key := Attempt(if fault.Fine? then Revoked else Settling(ToRetry), false)])
  {
    forall phase ensures s.attempts[key := Attempt(phase, false)] == map[key := Attempt(phase, false)] {}
  }

  class Worker {
    const maxAttempts: nat
    var b: Tables
    var granted: set<Grant>
    var revoked: set<Grant>

    constructor (maxAttempts: nat, b: Tables)
      ensures this.maxAttempts == maxAttempts && Idle() == System(b, {}, {}, map[])
    {
      this.maxAttempts := maxAttempts;
      this.b := b;
      granted, revoked := {}, {};
    }

    /** The system between calls. */
    ghost function Idle(): System
      reads this
    {
      System(b, granted, revoked, map[])
    }

    /** The system while the call on `key` is at the given point. */
    ghost function During(key: EventKey, attempt: Attempt): System
      reads this
    {
      System(b, granted, revoked, map[key := attempt])
    }

    /** Where a handler leaves the attempt. */
    ghost function Left(key: EventKey, failure: Failure, holds: bool): System
      reads this
      requires key in b.outbox
    {
      if failure.NoError? then Idle()
      else During(key, Attempt(Settling(Disposal(maxAttempts, failure, b.outbox[key].attempts)), holds))
    }

    lemma Moved(s: System, key: EventKey, attempt: Attempt)
      requires s.attempts.Keys == {key}
      ensures s.attempts[key := attempt] == map[key := attempt]
      ensures s.attempts - {key} == map[]
    {
    }

    method ProcessNext(key: EventKey, replies: Replies) returns (ghost steps: seq<Step>)
      requires key in b.outbox && LiveEvent(b.outbox[key])
      modifies this
      ensures Idle() == Run(maxAttempts, old(Idle()), steps)
      ensures old(SystemInv(Idle())) ==> SystemInv(Idle())
    {
      hide SystemInv, Run, DoSettle;
      ghost var start := Idle();
      b := Claim(b, key);
      RunOne(maxAttempts, start, [], ClaimNext(key));
      assert DoClaim(start, key) == During(key, Attempt(Claimed, false));
      var failure: Failure;
      ghost var handled: seq<Step>;
      ghost var holds: bool := false;
      match key {
        case PublishKey(_, _, _) => failure, handled, holds := Publish(key, replies);
        case RetireKey(_, _, _) => failure, handled := Retire(key, replies);
        case NoticeKey(_) => failure, handled := NotifyBulletin(key, replies);
        case _ => failure, handled := Revoke(key, replies);
      }
      steps := [ClaimNext(key)] + handled;
      RunAppends(maxAttempts, start, [ClaimNext(key)], handled);
      if !failure.NoError? {
        Dispose(key, failure, holds, replies.settle);
        RunOne(maxAttempts, start, steps, Settle(key, replies.settle));
        steps := steps + [Settle(key, replies.settle)];
      }
      if SystemInv(start) { RunKeeps(maxAttempts, start, steps); }
    }

    /** The end of processNext: Fail, Defer or Retry. */
    method Dispose(key: EventKey, failure: Failure, ghost holds: bool, fault: Fault)
      requires key in b.outbox && !failure.NoError?
      modifies this`b
      ensures Idle() == DoSettle(old(Left(key, failure, holds)), key, fault)
    {
      hide Fail, Release;
      Moved(Left(key, failure, holds), key, Attempt(Claimed, holds));
      if fault.LostBefore? { return; }
      if failure.PendingError? && !failure.overdue {
        b := Release(b, key, true);
      } else if failure.PendingError? || failure.TerminalError? || (b.outbox[key].attempts >= maxAttempts && !failure.CompensationError?) {
        b := Fail(b, key);
      } else {
        b := Release(b, key, false);
      }
    }

    /** publish */
    method Publish(key: EventKey, replies: Replies) returns (failure: Failure, ghost steps: seq<Step>, ghost holds: bool)
      requires key in b.outbox && key.PublishKey?
      modifies this
      ensures key in b.outbox && !failure.StaleError?
      ensures Left(key, failure, holds) == Run(maxAttempts, old(During(key, Attempt(Claimed, false))), steps)
    {
      hide Run, DoComplete, DoCompensate, DoSettle;
      ghost var start := During(key, Attempt(Claimed, false));
      holds := false;
      Moved(start, key, Attempt(Settling(ToRetry), false));
      if !replies.asset.Ready? {
        steps := [GetAsset(key, replies.asset)];
        RunOne(maxAttempts, start, [], GetAsset(key, replies.asset));
        match replies.asset {
          case Transient => failure := OrdinaryError;
          case Terminal => failure := TerminalError;
          case NotReady(overdue) => failure := PendingError(overdue);
        }
        Moved(start, key, Attempt(Settling(Disposal(maxAttempts, failure, b.outbox[key].attempts)), false));
        return;
      }
      steps := [CreateGrant(key, replies.grant)];
      RunOne(maxAttempts, start, [], CreateGrant(key, replies.grant));
      if !replies.grant.LostBefore? { granted := granted + {GrantOf(key)}; }
      if !replies.grant.Fine? { return CompensationError, steps, false; }
      holds := true;
      ghost var holding := During(key, Attempt(Granted, true));
      Moved(start, key, Attempt(Granted, true));
      assert Run(maxAttempts, start, steps) == holding;
      RunOne(maxAttempts, start, steps, Complete(key, replies.complete));
      steps := steps + [Complete(key, replies.complete)];
      failure := CompletePublication(key, replies.complete);
      if failure.NoError? { return; }
      ghost var handled: seq<Step>;
      failure, handled := HandlePublishFailure(key, failure, replies);
      RunAppends(maxAttempts, start, steps, handled);
      steps := steps + handled;
    }

    /** The attempt at the start of the failure handling. */
    ghost function Stopped(key: EventKey, cause: Failure): System
      reads this
      requires key in b.outbox
    {
      During(key, Attempt(
        if cause.StaleError? then Compensating
        else if b.outbox[key].attempts < maxAttempts then Settling(ToRetry)
        else Confirming, true))
    }

    /** CompletePublish as the worker sees it. */
    method CompletePublication(key: EventKey, fault: Fault) returns (cause: Failure)
      requires key in b.outbox && key.PublishKey?
      modifies this`b
      ensures key in b.outbox && (cause.NoError? || cause.OrdinaryError? || cause.StaleError?)
      ensures (if cause.NoError? then Idle() else Stopped(key, cause)) ==
              DoComplete(maxAttempts, old(During(key, Attempt(Granted, true))), key, fault)
    {
      hide CompletePublish;
      Moved(During(key, Attempt(Granted, true)), key, Attempt(Compensating, true));
      Moved(During(key, Attempt(Granted, true)), key, Attempt(Settling(ToRetry), true));
      Moved(During(key, Attempt(Granted, true)), key, Attempt(Confirming, true));
      if fault.LostBefore? { return OrdinaryError; }
      var committed := CompletePublish(b, key.issue, key.locale, key.version);
      if committed.Err? { return if committed.error.Stale? then StaleError else OrdinaryError; }
      FinishedKeepsAttempts(b, key);
      b := committed.value;
      return if fault.LostAfter? then OrdinaryError else NoError;
    }

    /** handlePublishFailure */
    method HandlePublishFailure(key: EventKey, cause: Failure, replies: Replies) returns (failure: Failure, ghost steps: seq<Step>)
      requires key in b.outbox && key.PublishKey? && (cause.OrdinaryError? || cause.StaleError?)
      modifies this`b
      ensures key in b.outbox && !failure.StaleError?
      ensures Left(key, failure, true) == Run(maxAttempts, old(Stopped(key, cause)), steps)
    {
      hide Run, DoComplete, DoCompensate, DoSettle;
      ghost var start := Stopped(key, cause);
      steps := [];
      RunOne(maxAttempts, start, [], Confirm(key, replies.confirmed));
      if !cause.StaleError? {
        if b.outbox[key].attempts < maxAttempts { return cause, []; }
        steps := [Confirm(key, replies.confirmed)];
        Moved(start, key, Attempt(Settling(ToRetry), true));
        if !replies.confirmed { return CompensationError, steps; }
        if b.outbox[key].status.Delivered? { return NoError, steps; }
      }
      ghost var compensating := During(key, Attempt(Compensating, true));
      Moved(start, key, Attempt(Compensating, true));
      assert Run(maxAttempts, start, steps) == compensating;
      RunOne(maxAttempts, start, steps, Compensate(key, replies.compensate));
      steps := steps + [Compensate(key, replies.compensate)];
      failure := FailPublication(key, replies.compensate);
    }

    method FailPublication(key: EventKey, fault: Fault) returns (failure: Failure)
      requires key in b.outbox && key.PublishKey?
      modifies this`b
      ensures key in b.outbox && (failure.NoError? || failure.CompensationError?)
      ensures Left(key, failure, true) == DoCompensate(old(During(key, Attempt(Compensating, true))), key, fault)
    {
      Moved(During(key, Attempt(Compensating, true)), key, Attempt(Settling(ToRetry), true));
      if fault.LostBefore? { return CompensationError; }
      FailedKeepsEvent(b, key);
      hide FailPublish;
      b := FailPublish(b, key.issue, key.locale, key.version);
      return if fault.LostAfter? then CompensationError else NoError;
    }

    /** unpublish and revokeGrant: revoke the event's grant, then complete the event. */
    method Revoke(key: EventKey, replies: Replies) returns (failure: Failure, ghost steps: seq<Step>)
      requires key in b.outbox && (key.UnpublishKey? || key.RevokeKey?)
      modifies this
      ensures key in b.outbox && !failure.StaleError?
      ensures Left(key, failure, false) == Run(maxAttempts, old(During(key, Attempt(Claimed, false))), steps)
    {
      hide Run, DoRevokeGrant, DoComplete, DoSettle;
      ghost var start := During(key, Attempt(Claimed, false));
      steps := [RevokeGrant(key, replies.revoke)];
      RunOne(maxAttempts, start, [], RevokeGrant(key, replies.revoke));
      RevocationIs(start, key, replies.revoke);
      if b.outbox[key].grant.None? { return TerminalError, steps; }
      if !replies.revoke.LostBefore? { revoked := revoked + {b.outbox[key].grant.value}; }
      if !replies.revoke.Fine? { return CompensationError, steps; }
      assert Run(maxAttempts, start, steps) == During(key, Attempt(Revoked, false));
      RunOne(maxAttempts, start, steps, Complete(key, replies.complete));
      steps := steps + [Complete(key, replies.complete)];
      failure := CompleteEvent(key, Revoked, replies.complete);
    }

    /** retire: revoke the grant, if there is one, and delete the file, then complete the event. */
    method Retire(key: EventKey, replies: Replies) returns (failure: Failure, ghost steps: seq<Step>)
      requires key in b.outbox && key.RetireKey?
      modifies this
      ensures key in b.outbox && !failure.StaleError?
      ensures Left(key, failure, false) == Run(maxAttempts, old(During(key, Attempt(Claimed, false))), steps)
    {
      hide Run, DoComplete, DoSettle;
      ghost var start := During(key, Attempt(Claimed, false));
      steps := [RevokeGrant(key, replies.revoke)];
      RunOne(maxAttempts, start, [], RevokeGrant(key, replies.revoke));
      Moved(start, key, Attempt(Settling(ToRetry), false));
      Moved(start, key, Attempt(Revoked, false));
      ghost var attempt := Attempt(Claimed, false);
      if b.outbox[key].grant.Some? {
        if !replies.revoke.LostBefore? { revoked := revoked + {b.outbox[key].grant.value}; }
        if !replies.revoke.Fine? { return CompensationError, steps; }
        attempt := Attempt(Revoked, false);
      }
      assert Run(maxAttempts, start, steps) == During(key, attempt);
      ghost var handled: seq<Step>;
      failure, handled := RemoveFile(key, attempt, replies);
      RunAppends(maxAttempts, start, steps, handled);
      steps := steps + handled;
    }

    /** retire, once there is no grant left: delete the file, then complete the event. */
    method RemoveFile(key: EventKey, ghost attempt: Attempt, replies: Replies) returns (failure: Failure, ghost steps: seq<Step>)
      requires key in b.outbox && key.RetireKey? && !attempt.holds
      requires attempt.phase.Revoked? || (attempt.phase.Claimed? && b.outbox[key].grant.None?)
      modifies this`b
      ensures key in b.outbox && !failure.StaleError?
      ensures Left(key, failure, false) == Run(maxAttempts, old(During(key, attempt)), steps)
    {
      hide Run, DoComplete, DoSettle;
      ghost var start := During(key, attempt);
      steps := [DeleteAsset(key, replies.remove)];
      RunOne(maxAttempts, start, [], DeleteAsset(key, replies.remove));
      Moved(start, key, Attempt(Settling(ToRetry), false));
      if !replies.remove.Fine? { return CompensationError, steps; }
      Moved(start, key, Attempt(Removed, false));
      assert Run(maxAttempts, start, steps) == During(key, Attempt(Removed, false));
      RunOne(maxAttempts, start, steps, Complete(key, replies.complete));
      steps := steps + [Complete(key, replies.complete)];
      failure := CompleteEvent(key, Removed, replies.complete);
    }

    /** notifyBulletin */
    method NotifyBulletin(key: EventKey, replies: Replies) returns (failure: Failure, ghost steps: seq<Step>)
      requires key in b.outbox && key.NoticeKey?
      modifies this
      ensures key in b.outbox && !failure.StaleError?
      ensures Left(key, failure, false) == Run(maxAttempts, old(During(key, Attempt(Claimed, false))), steps)
    {
      hide Run, DoComplete, DoSettle;
      ghost var start := During(key, Attempt(Claimed, false));
      steps := [Notify(key, replies.notified)];
      RunOne(maxAttempts, start, [], Notify(key, replies.notified));
      Moved(start, key, Attempt(Settling(Disposal(maxAttempts, OrdinaryError, b.outbox[key].attempts)), false));
      Moved(start, key, Attempt(Settling(ToFail), false));
      if replies.notified.Transient? { return OrdinaryError, steps; }
      if replies.notified.Terminal? { return TerminalError, steps; }
      RunOne(maxAttempts, start, steps, Complete(key, replies.complete));
      steps := steps + [Complete(key, replies.complete)];
      failure := CompleteEvent(key, Claimed, replies.complete);
    }

    /** CompleteUnpublish, CompleteNotification or Complete; their errors are ordinary ones. */
    method CompleteEvent(key: EventKey, ghost phase: Phase, fault: Fault) returns (failure: Failure)
      requires key in b.outbox && !key.PublishKey?
      requires CanFinish(During(key, Attempt(phase, false)), key)
      modifies this`b
      ensures key in b.outbox && (failure.NoError? || failure.OrdinaryError?)
      ensures Left(key, failure, false) == DoComplete(maxAttempts, old(During(key, Attempt(phase, false))), key, fault)
    {
      hide CompleteUnpublish, CompleteNotification;
      Moved(During(key, Attempt(phase, false)), key, Attempt(Settling(Disposal(maxAttempts, OrdinaryError, b.outbox[key].attempts)), false));
      if fault.LostBefore? { return OrdinaryError; }
      var committed := Finished(b, key);
      if committed.Err? { return OrdinaryError; }
      FinishedKeepsAttempts(b, key);
      b := committed.value;
      return if fault.LostAfter? then OrdinaryError else NoError;
    }
  }
}
