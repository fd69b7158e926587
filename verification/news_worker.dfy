/** The worker's own control flow on the events of a news item: one call of processNext, statement
    by statement, with the remote service's and the database's replies as inputs. An undisturbed
    call is shown to be a run of the steps in `news.dfy`, so it keeps what they keep. */
module NewsWorker {
  import opened ContentModel
  import opened News
  import opened NewsInvariants

  /** What the outside answers during one call. */
  datatype Replies = Replies(
    asset: Usage -> AssetReply,
    grant: Usage -> Fault,
    revoke: Usage -> Fault,
    complete: Fault,
    confirmed: bool,
    compensate: Fault,
    settle: Fault)

  /** A run of steps on one item; the worker's steps do not look at `taken`. */
  function Follow(r: Rules, max: nat, taken: set<string>, t: Track, steps: seq<Step>): Track
    decreases steps
  {
    if steps == [] then t else Follow(r, max, taken, Next(r, max, taken, t, steps[0]), steps[1..])
  }

  lemma {:induction false} FollowAppends(r: Rules, max: nat, taken: set<string>, t: Track, first: seq<Step>, second: seq<Step>)
    ensures Follow(r, max, taken, t, first + second) == Follow(r, max, taken, Follow(r, max, taken, t, first), second)
    decreases first
  {
    if first == [] {
      assert [] + second == second;
    } else {
      assert (first + second)[0] == first[0] && (first + second)[1..] == first[1..] + second;
      FollowAppends(r, max, taken, Next(r, max, taken, t, first[0]), first[1..], second);
    }
  }

  lemma FollowOne(r: Rules, max: nat, taken: set<string>, t: Track, steps: seq<Step>, step: Step)
    ensures Follow(r, max, taken, t, []) == t
    ensures Follow(r, max, taken, t, steps + [step]) == Next(r, max, taken, Follow(r, max, taken, t, steps), step)
  {
    FollowAppends(r, max, taken, t, steps, [step]);
    assert [step][1..] == [];
  }

  lemma {:induction false} FollowKeeps(r: Rules, max: nat, taken: set<string>, t: Track, steps: seq<Step>)
    requires Inv(r, t)
    ensures Inv(r, Follow(r, max, taken, t, steps))
    decreases steps
  {
    hide Inv, Next;
    if steps != [] {
      NextKeeps(r, max, taken, t, steps[0]);
      FollowKeeps(r, max, taken, Next(r, max, taken, t, steps[0]), steps[1..]);
    }
  }

  /** newsPublishReferences: the usages with an asset, in order. */
  function References(usages: set<Usage>): seq<Usage> {
    if Detail in usages && HomePage in usages then [Detail, HomePage]
    else if Detail in usages then [Detail]
    else if HomePage in usages then [HomePage]
    else []
  }

  /** The references a loop has been through. */
  function Visited(usages: set<Usage>, i: nat): set<Usage>
    requires i <= |References(usages)|
  {
    set u | u in References(usages)[..i]
  }

  /** The loops over references visit the usages in the order of the steps. */
  lemma NextReference(usages: set<Usage>, i: nat)
    requires i <= |References(usages)|
    ensures Visited(usages, 0) == {}
    ensures i < |References(usages)| ==>
              && Visited(usages, i) < usages && NextUsage(usages, Visited(usages, i)) == References(usages)[i]
              && Visited(usages, i + 1) == Visited(usages, i) + {References(usages)[i]}
    ensures i == |References(usages)| ==> Visited(usages, i) == usages
  {
    var references := References(usages);
    if i < |references| {
      assert i == 1 ==> references[..i] == [Detail] && Detail in Visited(usages, i);
      assert references[i] in usages && references[i] !in Visited(usages, i);
      assert references[..i + 1] == references[..i] + [references[i]];
    } else {
      assert references[..i] == references;
      forall u | u in usages ensures u in references { assert u.Detail? || u.HomePage?; }
    }
  }

  /** What an asset that is not ready makes of the only attempt. */
  lemma AssetStops(max: nat, t: Track, key: Key, reply: AssetReply, failure: Failure)
    requires key in t.item.outbox && key.PublishKey? && t.attempts == map[key := Attempt(Claimed, {})] && t.item.outbox[key].covers != map[]
    requires match reply
      case Ready => false
      case Transient => failure.OrdinaryError?
      case Terminal => failure.TerminalError?
      case NotReady(overdue) => failure == PendingError(overdue)
    ensures DoGetAsset(max, t, key, reply) ==
      t.(attempts := map[key := Attempt(Settling(Disposal(max, failure, t.item.outbox[key].attempts)), {})])
  {
    forall phase ensures t.attempts[key := Attempt(phase, {})] == map[key := Attempt(phase, {})] {}
  }

  /** What one revocation makes of the only attempt. */
  lemma RevocationIs(t: Track, key: Key, done: set<Usage>, fault: Fault)
    requires key in t.item.outbox && !key.PublishKey? && t.attempts == map[key := Attempt(Claimed, done)]
    requires done < t.item.outbox[key].revoking.Keys
    ensures var u := NextUsage(t.item.outbox[key].revoking.Keys, done);
      DoRevokeNext(t, key, fault) == t.(
        revoked := if fault.LostBefore? then t.revoked else t.revoked + {t.item.outbox[key].revoking[u].grant},
        attempts := map[key := if fault.Fine? then Attempt(Claimed, done + {u}) else Attempt(Settling(ToRetry), done)])
  {
    forall attempt: Attempt ensures t.attempts[key := attempt] == map[key := attempt] {}
  }

  lemma RevokingCompletionIs(r: Rules, max: nat, t: Track, key: Key, done: set<Usage>, fault: Fault)
    requires key in t.item.outbox && !key.PublishKey? && t.attempts == map[key := Attempt(Claimed, done)]
    requires done == t.item.outbox[key].revoking.Keys
    ensures var after := DoComplete(r, max, t, key, fault);
      var committed := Completed(r, t.item, key);
      var failed := map[key := Attempt(Settling(Disposal(max, OrdinaryError, t.item.outbox[key].attempts)), done)];
      if fault.LostBefore? || committed.Err? then after == t.(attempts := failed)
      else after == t.(item := committed.value, attempts := if fault.Fine? then map[] else failed)
  {
    hide Completed;
    forall phase ensures t.attempts[key := Attempt(phase, done)] == map[key := Attempt(phase, done)] {}
    assert t.attempts - {key} == map[];
  }

  /** What a completion makes of the only attempt. */
  lemma CompletionIs(r: Rules, max: nat, t: Track, key: Key, done: set<Usage>, fault: Fault)
    requires key in t.item.outbox && key.PublishKey? && t.attempts == map[key := Attempt(Claimed, done)]
    requires done == t.item.outbox[key].covers.Keys
    ensures var after := DoComplete(r, max, t, key, fault);
      var committed := CompletePublish(r, t.item, key.version, GrantsFor(t.item.outbox[key].covers, key.version));
      var failed := Attempt(if t.item.outbox[key].attempts < max then Settling(ToRetry) else Confirming, done);
      if fault.LostBefore? then after == t.(attempts := map[key := failed])
      else if committed.Err? then
        after == t.(attempts := map[key := if committed.error.Stale? then Attempt(Compensating, done) else failed])
      else
        after == t.(item := committed.value, attempts := if fault.Fine? then map[] else map[key := failed])
  {
    hide CompletePublish;
    forall phase ensures t.attempts[key := Attempt(phase, done)] == map[key := Attempt(phase, done)] {}
    assert t.attempts - {key} == map[];
  }

  lemma CompletedKeepsAttempts(r: Rules, item: Item, key: Key)
    requires key in item.outbox && Completed(r, item, key).Ok?
    ensures var after := Completed(r, item, key).value.outbox; key in after && after[key].attempts == item.outbox[key].attempts
  {
  }

  class Worker {
    const rules: Rules
    const maxAttempts: nat
    var item: Item
    var granted: set<Grant>
    var revoked: set<Grant>
    ghost var dropped: set<Grant>

    constructor (rules: Rules, maxAttempts: nat, item: Item)
      ensures this.rules == rules && this.maxAttempts == maxAttempts && Idle() == Track(item, {}, {}, map[], {})
    {
      this.rules := rules;
      this.maxAttempts := maxAttempts;
      this.item := item;
      granted := {};
      revoked := {};
      dropped := {};
    }

    /** The item between calls. */
    ghost function Idle(): Track
      reads this
    {
      Track(item, granted, revoked, map[], dropped)
    }

    /** The item while the call on `key` is at the given point. */
    ghost function During(key: Key, attempt: Attempt): Track
      reads this
    {
      Track(item, granted, revoked, map[key := attempt], dropped)
    }

    /** Where a handler leaves the attempt. */
    ghost function Left(key: Key, failure: Failure, done: set<Usage>): Track
      reads this
      requires key in item.outbox
    {
      if failure.NoError? then Idle()
      else During(key, Attempt(Settling(Disposal(maxAttempts, failure, item.outbox[key].attempts)), done))
    }

    method ProcessNext(key: Key, replies: Replies, ghost taken: set<string>) returns (ghost steps: seq<Step>)
      requires key in item.outbox && LiveEvent(item.outbox[key])
      modifies this
      ensures Idle() == Follow(rules, maxAttempts, taken, old(Idle()), steps)
      ensures old(Inv(rules, Idle())) ==> Inv(rules, Idle())
    {
      hide Inv, Follow, DoSettle;
      ghost var start := Idle();
      item := item.(outbox := Written(item.outbox, key, Processing, item.outbox[key].attempts + 1));
      FollowOne(rules, maxAttempts, taken, start, [], Claim(key));
      assert [] + [Claim(key)] == [Claim(key)];
      assert DoClaim(start, key) == During(key, Attempt(Claimed, {}));
      var failure: Failure;
      ghost var handled: seq<Step>;
      var done: set<Usage>;
      if key.PublishKey? {
        failure, handled, done := PublishNews(key, replies, taken);
      } else {
        failure, handled, done := RevokeGrants(key, replies, taken);
      }
      steps := [Claim(key)] + handled;
      FollowAppends(rules, maxAttempts, taken, start, [Claim(key)], handled);
      if !failure.NoError? {
        ghost var before := Left(key, failure, done);
        Dispose(key, failure, replies.settle);
        FollowOne(rules, maxAttempts, taken, start, steps, Settle(key, replies.settle));
        steps := steps + [Settle(key, replies.settle)];
      }
      if Inv(rules, start) { FollowKeeps(rules, maxAttempts, taken, start, steps); }
    }

    /** The end of processNext: Fail, Defer or Retry. */
    method Dispose(key: Key, failure: Failure, fault: Fault)
      requires key in item.outbox && !failure.NoError?
      modifies this
      ensures forall done :: Idle() == DoSettle(old(Left(key, failure, done)), key, fault)
      ensures key in item.outbox
    {
      var event := item.outbox[key];
      if fault.LostBefore? { return; }
      if failure.PendingError? && !failure.overdue {
        if event.status.Processing? {
          var left := if event.attempts == 0 then 0 else event.attempts - 1;
          item := item.(outbox := Written(item.outbox, key, Waiting, left));
        }
      } else if failure.PendingError? || failure.TerminalError? || (event.attempts >= maxAttempts && !failure.CompensationError?) {
        item := Fail(item, key);
        if key.PublishKey? { dropped := dropped + GrantSet(event.covers.Keys, key.version); }
      } else if event.status.Processing? {
        item := item.(outbox := Written(item.outbox, key, Waiting, event.attempts));
      }
    }

    /** The first loop of publishNews: the first asset that is not ready stops the attempt. */
    method LookAtAssets(key: Key, references: seq<Usage>, replies: Replies, ghost taken: set<string>)
      returns (failure: Failure, ghost steps: seq<Step>)
      requires key in item.outbox && key.PublishKey? && (references != [] ==> item.outbox[key].covers != map[])
      ensures !failure.StaleError?
      ensures !failure.NoError? ==>
        Left(key, failure, {}) == Follow(rules, maxAttempts, taken, During(key, Attempt(Claimed, {})), steps)
    {
      hide DoGetAsset, Follow;
      ghost var start := During(key, Attempt(Claimed, {}));
      for i := 0 to |references| {
        var reply := replies.asset(references[i]);
        if !reply.Ready? {
          match reply {
            case Transient => failure := OrdinaryError;
            case Terminal => failure := TerminalError;
            case NotReady(overdue) => failure := PendingError(overdue);
          }
          FollowOne(rules, maxAttempts, taken, start, [], GetAsset(key, reply));
          assert [] + [GetAsset(key, reply)] == [GetAsset(key, reply)];
          AssetStops(maxAttempts, start, key, reply, failure);
          return failure, [GetAsset(key, reply)];
        }
      }
      return NoError, [];
    }

    method PublishNews(key: Key, replies: Replies, ghost taken: set<string>) returns (failure: Failure, ghost steps: seq<Step>, done: set<Usage>)
      requires key in item.outbox && key.PublishKey?
      modifies this
      ensures key in item.outbox && !failure.StaleError?
      ensures Left(key, failure, done) == Follow(rules, maxAttempts, taken, old(During(key, Attempt(Claimed, {}))), steps)
    {
      hide DoGetAsset, DoCreateGrant, DoRevokeNext, DoCompensate, DoComplete, DoConfirm, DoSettle, Apply, Follow;
      ghost var start := During(key, Attempt(Claimed, {}));
      var covers := item.outbox[key].covers;
      var references := References(covers.Keys);
      failure, steps := LookAtAssets(key, references, replies, taken);
      if !failure.NoError? { return failure, steps, {}; }
      steps, done := [], {};
      FollowOne(rules, maxAttempts, taken, start, [], Crash(key));
      for i := 0 to |references|
        invariant item == old(item) && done == Visited(covers.Keys, i)
        invariant During(key, Attempt(Claimed, done)) == Follow(rules, maxAttempts, taken, start, steps)
      {
        NextReference(covers.Keys, i);
        ghost var before := During(key, Attempt(Claimed, done));
        var fault := replies.grant(references[i]);
        if !fault.LostBefore? { granted := granted + {Grant(references[i], key.version)}; }
        FollowOne(rules, maxAttempts, taken, start, steps, CreateGrant(key, fault));
        steps := steps + [CreateGrant(key, fault)];
        if !fault.Fine? {
          CreationStops(before, During(key, Stopped(key, OrdinaryError, done)), key, fault);
          ghost var handled: seq<Step>;
          failure, handled := HandleFailure(key, OrdinaryError, done, replies, taken);
          FollowAppends(rules, maxAttempts, taken, start, steps, handled);
          steps := steps + handled;
          return;
        }
        done := done + {references[i]};
        CreationContinues(before, During(key, Attempt(Claimed, done)), key);
      }
      NextReference(covers.Keys, |references|);
      ghost var before := During(key, Attempt(Claimed, done));
      FollowOne(rules, maxAttempts, taken, start, steps, Complete(key, replies.complete));
      steps := steps + [Complete(key, replies.complete)];
      failure := CompleteContentPublish(key, replies.complete);
      if failure.NoError? { return; }
      ghost var handled: seq<Step>;
      failure, handled := HandleFailure(key, failure, done, replies, taken);
      FollowAppends(rules, maxAttempts, taken, start, steps, handled);
      steps := steps + handled;
    }

    /** The attempt at the start of the failure handling. */
    ghost function Stopped(key: Key, cause: Failure, done: set<Usage>): Attempt
      reads this
      requires key in item.outbox
    {
      Attempt(
        if cause.StaleError? then Compensating
        else if item.outbox[key].attempts < maxAttempts then Settling(ToRetry)
        else Confirming, done)
    }

    lemma CreationStops(before: Track, after: Track, key: Key, fault: Fault)
      requires At(before, key, Claimed) && key.PublishKey? && before.attempts[key].done < Wanted(key, before.item.outbox[key])
      requires !fault.Fine? && before.attempts.Keys == {key}
      requires var done := before.attempts[key].done;
        after == Track(before.item,
                       if fault.LostBefore? then before.granted
                       else before.granted + {Grant(NextUsage(Wanted(key, before.item.outbox[key]), done), key.version)},
                       before.revoked,
                       map[key := Attempt(if before.item.outbox[key].attempts < maxAttempts then Settling(ToRetry) else Confirming, done)],
                       before.dropped)
      ensures after == DoCreateGrant(maxAttempts, before, key, fault)
    {
      assert DoCreateGrant(maxAttempts, before, key, fault).attempts == after.attempts;
    }

    lemma CreationContinues(before: Track, after: Track, key: Key)
      requires At(before, key, Claimed) && key.PublishKey? && before.attempts[key].done < Wanted(key, before.item.outbox[key])
      requires before.attempts.Keys == {key}
      requires var u := NextUsage(Wanted(key, before.item.outbox[key]), before.attempts[key].done);
        after == Track(before.item, before.granted + {Grant(u, key.version)}, before.revoked,
                       map[key := Attempt(Claimed, before.attempts[key].done + {u})], before.dropped)
      ensures after == DoCreateGrant(maxAttempts, before, key, Fine)
    {
      assert DoCreateGrant(maxAttempts, before, key, Fine).attempts == after.attempts;
    }

    /** The completion of a publication as the worker sees it. */
    method CompleteContentPublish(key: Key, fault: Fault) returns (cause: Failure)
      requires key in item.outbox && key.PublishKey?
      modifies this`item
      ensures key in item.outbox && (cause.NoError? || cause.OrdinaryError? || cause.StaleError?)
      ensures forall done | done == old(item).outbox[key].covers.Keys ::
                (if cause.NoError? then Idle() else During(key, Stopped(key, cause, done))) ==
                DoComplete(rules, maxAttempts, old(During(key, Attempt(Claimed, done))), key, fault)
    {
      hide DoComplete, CompletePublish, GrantsFor;
      ghost var done := item.outbox[key].covers.Keys;
      CompletionIs(rules, maxAttempts, During(key, Attempt(Claimed, done)), key, done, fault);
      if fault.LostBefore? { return OrdinaryError; }
      var committed := CompletePublish(rules, item, key.version, GrantsFor(item.outbox[key].covers, key.version));
      if committed.Err? { return if committed.error.Stale? then StaleError else OrdinaryError; }
      CompletedKeepsAttempts(rules, item, key);
      item := committed.value;
      return if fault.LostAfter? then OrdinaryError else NoError;
    }

    /** handleContentPublishFailure */
    method HandleFailure(key: Key, cause: Failure, done: set<Usage>, replies: Replies, ghost taken: set<string>) returns (failure: Failure, ghost steps: seq<Step>)
      requires key in item.outbox && key.PublishKey? && (cause.OrdinaryError? || cause.StaleError?)
      modifies this
      ensures key in item.outbox && !failure.StaleError?
      ensures Left(key, failure, done) == Follow(rules, maxAttempts, taken, old(During(key, Stopped(key, cause, done))), steps)
    {
      hide DoCompensate, DoComplete, DoSettle, Apply, Follow;
      ghost var start := During(key, Stopped(key, cause, done));
      steps := [];
      FollowOne(rules, maxAttempts, taken, start, [], Confirm(key, replies.confirmed));
      if !cause.StaleError? {
        if item.outbox[key].attempts < maxAttempts { return cause, []; }
        assert [] + [Confirm(key, replies.confirmed)] == [Confirm(key, replies.confirmed)];
        steps := [Confirm(key, replies.confirmed)];
        if !replies.confirmed {
          assert start.attempts[key := Attempt(Settling(ToRetry), done)] == map[key := Attempt(Settling(ToRetry), done)];
          return CompensationError, steps;
        }
        if item.outbox[key].status.Delivered? {
          assert start.attempts - {key} == map[];
          return NoError, steps;
        }
      }
      ghost var compensating := During(key, Attempt(Compensating, done));
      assert Follow(rules, maxAttempts, taken, start, steps) == compensating by {
        assert start.attempts[key := Attempt(Compensating, done)] == compensating.attempts;
      }
      FollowOne(rules, maxAttempts, taken, start, steps, Compensate(key, replies.compensate));
      steps := steps + [Compensate(key, replies.compensate)];
      failure := FailContentPublish(key, done, replies.compensate);
    }

    method FailContentPublish(key: Key, done: set<Usage>, fault: Fault) returns (failure: Failure)
      requires key in item.outbox && key.PublishKey?
      modifies this
      ensures key in item.outbox && (failure.NoError? || failure.CompensationError?)
      ensures Left(key, failure, done) == DoCompensate(old(During(key, Attempt(Compensating, done))), key, fault)
    {
      if fault.LostBefore? { return CompensationError; }
      var covers := item.outbox[key].covers;
      FailedEventOf(item, key, Held(covers, key.version, done));
      item := FailPublish(item, key.version, Held(covers, key.version, done));
      dropped := dropped + GrantSet(covers.Keys - done, key.version);
      return if fault.LostAfter? then CompensationError else NoError;
    }

    /** unpublishNews, which revokes the grants of its event one by one, and revokeGrant, whose
        event has one grant; then the transaction that ends the event. */
    method RevokeGrants(key: Key, replies: Replies, ghost taken: set<string>) returns (failure: Failure, ghost steps: seq<Step>, done: set<Usage>)
      requires key in item.outbox && !key.PublishKey?
      modifies this
      ensures key in item.outbox && !failure.StaleError?
      ensures Left(key, failure, done) == Follow(rules, maxAttempts, taken, old(During(key, Attempt(Claimed, {}))), steps)
    {
      hide DoRevokeNext, DoCompensate, DoComplete, DoSettle, Apply, Follow;
      ghost var start := During(key, Attempt(Claimed, {}));
      var assets := item.outbox[key].revoking;
      var references := References(assets.Keys);
      steps, done := [], {};
      FollowOne(rules, maxAttempts, taken, start, [], Crash(key));
      for i := 0 to |references|
        invariant item == old(item) && done == Visited(assets.Keys, i)
        invariant During(key, Attempt(Claimed, done)) == Follow(rules, maxAttempts, taken, start, steps)
      {
        NextReference(assets.Keys, i);
        ghost var before := During(key, Attempt(Claimed, done));
        var fault := replies.revoke(references[i]);
        if !fault.LostBefore? { revoked := revoked + {assets[references[i]].grant}; }
        FollowOne(rules, maxAttempts, taken, start, steps, RevokeNext(key, fault));
        steps := steps + [RevokeNext(key, fault)];
        RevocationIs(before, key, done, fault);
        if !fault.Fine? { return CompensationError, steps, done; }
        done := done + {references[i]};
      }
      NextReference(assets.Keys, |references|);
      FollowOne(rules, maxAttempts, taken, start, steps, Complete(key, replies.complete));
      steps := steps + [Complete(key, replies.complete)];
      failure := CompleteRevoking(key, replies.complete);
    }

    /** CompleteContentUnpublish or Complete; whatever error it gives is an ordinary one. */
    method CompleteRevoking(key: Key, fault: Fault) returns (failure: Failure)
      requires key in item.outbox && !key.PublishKey?
      modifies this`item
      ensures key in item.outbox && (failure.NoError? || failure.OrdinaryError?)
      ensures forall done | done == old(item).outbox[key].revoking.Keys ::
                Left(key, failure, done) == DoComplete(rules, maxAttempts, old(During(key, Attempt(Claimed, done))), key, fault)
    {
      hide DoComplete, Completed;
      ghost var done := item.outbox[key].revoking.Keys;
      RevokingCompletionIs(rules, maxAttempts, During(key, Attempt(Claimed, done)), key, done, fault);
      if fault.LostBefore? { return OrdinaryError; }
      var committed := Completed(rules, item, key);
      if committed.Err? { return OrdinaryError; }
      CompletedKeepsAttempts(rules, item, key);
      item := committed.value;
      return if fault.LostAfter? then OrdinaryError else NoError;
    }
  }
}
