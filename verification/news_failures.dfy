/** What goes wrong with news items: the steps after which a grant is nobody's to revoke, and
    withdrawals that fail; with reachable states for each. */
module NewsFailures {
  import opened ContentModel
  import opened News
  import opened NewsInvariants
  import opened NewsGuarantees

  // ---------------------------------------------------------------- one step at a time

  lemma PartialLeak(r: Rules, max: nat, taken: set<string>, t: Track, v: Version)
    requires Inv(r, t) && LiveAt(t.item.outbox, v) && PublishKey(v) !in t.attempts
    requires t.item.outbox[PublishKey(v)].covers.Keys == {Detail, HomePage}
    requires t.item.outbox[PublishKey(v)].attempts + 1 >= max
    ensures var key := PublishKey(v);
      var held := Next(r, max, taken, Next(r, max, taken, t, Claim(key)), CreateGrant(key, Fine));
      var lost := Next(r, max, taken, Next(r, max, taken, held, CreateGrant(key, LostAfter)), Confirm(key, true));
      var after := Next(r, max, taken, lost, Compensate(key, Fine));
      && FailedAt(after.item.outbox, v)
      && RevocationQueued(after, Grant(Detail, v))
      && Leaked(after, Grant(HomePage, v))
  {
    hide Inv, Leaked, LiveAt, FailedAt, RevocationQueued, DoClaim, DoCreateGrant, DoConfirm, DoCompensate;
    var key := PublishKey(v);
    var claimed := DoClaim(t, key);
    var held := DoCreateGrant(max, claimed, key, Fine);
    var failing := DoCreateGrant(max, held, key, LostAfter);
    var lost := DoConfirm(failing, key, true);
    SecondReplyLost(max, t, v);
    ClaimKeeps(r, t, key);
    CreateGrantKeeps(r, max, claimed, key, Fine);
    CreateGrantKeeps(r, max, held, key, LostAfter);
    ConfirmKeeps(r, failing, key, true);
    CompensateKeeps(r, lost, key, Fine);
    UnheldGrantLeaks(r, lost, v, HomePage);
    HeldGrantIsQueued(lost, v, Detail);
  }

  lemma HeldGrantIsQueued(t: Track, v: Version, u: Usage)
    requires At(t, PublishKey(v), Compensating)
    requires t.attempts[PublishKey(v)].done <= t.item.outbox[PublishKey(v)].covers.Keys && u in t.attempts[PublishKey(v)].done
    ensures RevocationQueued(DoCompensate(t, PublishKey(v), Fine), Grant(u, v))
  {
    CompensatedOutbox(Fail(t.item, PublishKey(v)).outbox, t.item.outbox[PublishKey(v)].covers, v, t.attempts[PublishKey(v)].done);
    hide Compensated;
  }

  lemma SecondReplyLost(max: nat, t: Track, v: Version)
    requires LiveAt(t.item.outbox, v) && PublishKey(v) !in t.attempts
    requires t.item.outbox[PublishKey(v)].covers.Keys == {Detail, HomePage}
    requires t.item.outbox[PublishKey(v)].attempts + 1 >= max
    ensures var key := PublishKey(v);
      var held := DoCreateGrant(max, DoClaim(t, key), key, Fine);
      var lost := DoConfirm(DoCreateGrant(max, held, key, LostAfter), key, true);
      && At(lost, key, Compensating) && lost.attempts[key].done == {Detail}
      && lost.item.outbox[key].covers.Keys == {Detail, HomePage}
      && Grant(HomePage, v) in lost.granted
  {
    var key := PublishKey(v);
    var held := DoCreateGrant(max, DoClaim(t, key), key, Fine);
    assert At(held, key, Claimed) && held.attempts[key].done == {Detail};
    var failing := DoCreateGrant(max, held, key, LostAfter);
    assert At(failing, key, Confirming) && failing.attempts[key].done == {Detail};
  }

  lemma UnheldGrantLeaks(r: Rules, t: Track, v: Version, u: Usage)
    requires Inv(r, DoCompensate(t, PublishKey(v), Fine)) && At(t, PublishKey(v), Compensating)
    requires u in t.item.outbox[PublishKey(v)].covers && u !in t.attempts[PublishKey(v)].done && Grant(u, v) in t.granted
    ensures var after := DoCompensate(t, PublishKey(v), Fine); FailedAt(after.item.outbox, v) && Leaked(after, Grant(u, v))
  {
    var after := DoCompensate(t, PublishKey(v), Fine);
    assert Grant(u, v) in after.dropped;
  }

  lemma LastWithdrawal(r: Rules, max: nat, taken: set<string>, t: Track, v: Version, fault: Fault)
    requires Inv(r, t) && UnpublishKey(v) in t.item.outbox && LiveEvent(t.item.outbox[UnpublishKey(v)])
    requires UnpublishKey(v) !in t.attempts && t.item.outbox[UnpublishKey(v)].attempts + 1 >= max && !fault.Fine?
    ensures var key := UnpublishKey(v);
      var claimed := Next(r, max, taken, t, Claim(key));
      var revoked := Next(r, max, taken, Next(r, max, taken, claimed, RevokeNext(key, Fine)), RevokeNext(key, Fine));
      var after := Next(r, max, taken, Next(r, max, taken, revoked, Complete(key, fault)), Settle(key, Fine));
      && t.item.entry.Some? && after.item.entry.Some?
      && key in after.item.outbox && after.item.outbox[key].status.FailedEvent?
      && var e, n := t.item.entry.value, after.item.entry.value;
        && (forall u | u in e.recorded :: e.recorded[u].grant in after.revoked)
        && n == if fault.LostBefore? then e.(status := UnpublishFailed)
                else e.(status := Unpublished, recorded := map[], publishedVersion := None)
  {
    hide Inv, LiveEvent, DoClaim, DoRevokeNext, DoComplete, DoSettle;
    LiveWithdrawal(r, t, v);
    var claimed := DoClaim(t, UnpublishKey(v));
    ClaimedWithdrawal(t, UnpublishKey(v));
    BothRevoked(claimed, UnpublishKey(v), t.item.entry.value.recorded);
    LastCompletion(r, max, DoRevokeNext(DoRevokeNext(claimed, UnpublishKey(v), Fine), UnpublishKey(v), Fine), v, fault);
  }

  lemma LiveWithdrawal(r: Rules, t: Track, v: Version)
    requires Inv(r, t) && UnpublishKey(v) in t.item.outbox && LiveEvent(t.item.outbox[UnpublishKey(v)])
    ensures t.item.entry.Some? && t.item.entry.value.status.Unpublishing? && t.item.entry.value.version == v
    ensures t.item.outbox[UnpublishKey(v)].revoking == t.item.entry.value.recorded
  {
    assert EventInv(t.item.entry, UnpublishKey(v), t.item.outbox[UnpublishKey(v)]);
  }

  lemma ClaimedWithdrawal(t: Track, key: Key)
    requires key in t.item.outbox && LiveEvent(t.item.outbox[key]) && key !in t.attempts
    ensures var claimed := DoClaim(t, key);
      && At(claimed, key, Claimed) && claimed.attempts[key].done == {}
      && claimed.item.entry == t.item.entry
      && claimed.item.outbox[key] == t.item.outbox[key].(status := Processing, attempts := t.item.outbox[key].attempts + 1)
  {
  }

  lemma LastCompletion(r: Rules, max: nat, t: Track, v: Version, fault: Fault)
    requires At(t, UnpublishKey(v), Claimed) && t.item.entry.Some? && !fault.Fine?
    requires t.item.entry.value.status.Unpublishing? && t.item.entry.value.version == v
    requires t.item.outbox[UnpublishKey(v)].status.Processing? && t.item.outbox[UnpublishKey(v)].attempts >= max
    requires t.attempts[UnpublishKey(v)].done == Wanted(UnpublishKey(v), t.item.outbox[UnpublishKey(v)])
    ensures var key := UnpublishKey(v);
      var after := DoSettle(DoComplete(r, max, t, key, fault), key, Fine);
      && after.revoked == t.revoked && after.item.entry.Some?
      && key in after.item.outbox && after.item.outbox[key].status.FailedEvent?
      && after.item.entry.value ==
         if fault.LostBefore? then t.item.entry.value.(status := UnpublishFailed)
         else t.item.entry.value.(status := Unpublished, recorded := map[], publishedVersion := None)
  {
    var completed := DoComplete(r, max, t, UnpublishKey(v), fault);
    assert completed.attempts[UnpublishKey(v)].phase == Settling(ToFail);
  }

  /** Two rounds revoke whatever there is. */
  lemma BothRevoked(t: Track, key: Key, assets: map<Usage, Recorded>)
    requires At(t, key, Claimed) && !key.PublishKey? && t.attempts[key].done == {} && t.item.outbox[key].revoking == assets
    ensures var two := DoRevokeNext(DoRevokeNext(t, key, Fine), key, Fine);
      && two.item == t.item && At(two, key, Claimed) && two.attempts[key].done == assets.Keys
      && forall u | u in assets :: assets[u].grant in two.revoked
  {
    forall u | u in assets ensures u.Detail? || u.HomePage? {}
    assert assets.Keys == {} || assets.Keys == {Detail} || assets.Keys == {HomePage} || assets.Keys == {Detail, HomePage};
  }

  // ---------------------------------------------------------------- stuck

  /** Nothing shown, but grants still recorded, and nobody withdrawing them. */
  predicate Parked(t: Track) {
    && t.item.entry.Some?
    && t.item.entry.value.rows == map[] && t.item.entry.value.recorded != map[] && !t.item.entry.value.status.Unpublishing?
  }

  /** After a failed withdrawal of grants the item can be neither withdrawn again nor deleted,
      though its grants are all revoked. Whatever administrators and worker do, it stays so with
      the same grants recorded, up to the turn that completes a new publication, and no longer. */
  lemma StuckUntilPublished(r: Rules, max: nat, room: Newsroom, turn: Turn, id: Id)
    requires Reachable(r, max, room) && id in room && Parked(room[id])
    ensures forall u | u in room[id].item.entry.value.recorded :: room[id].item.entry.value.recorded[u].grant in room[id].revoked
    ensures forall expected :: StartUnpublish(room[id].item, expected).Err? && Delete(room[id].item, expected).Err?
    ensures var after := Advance(r, max, room, turn);
      id in after && if CompletesAt(room, turn, id) then !Parked(after[id])
                     else Parked(after[id]) && after[id].item.entry.value.recorded == room[id].item.entry.value.recorded
  {
    hide Inv, Next, Parked, CompletesPublication;
    ReachableHolds(r, max, room);
    assert Inv(r, room[id]);
    ParkedIsStuck(r, room[id]);
    if turn.On? && turn.id == id { ParkedStep(r, max, SlugsOfOthers(room, id), room[id], turn.step); }
  }

  /** The same over whole runs. */
  lemma {:induction false} StuckInRuns(r: Rules, max: nat, room: Newsroom, turns: seq<Turn>, id: Id)
    requires Reachable(r, max, room) && id in room && Parked(room[id])
    requires forall i | 0 <= i < |turns| :: !CompletesAt(Run(r, max, room, turns[..i]), turns[i], id)
    ensures var after := Run(r, max, room, turns);
      && id in after && Parked(after[id])
      && after[id].item.entry.value.recorded == room[id].item.entry.value.recorded
    decreases |turns|
  {
    hide Reachable, Advance, Parked, CompletesAt;
    if turns != [] {
      assert turns[..0] == [] && Run(r, max, room, []) == room;
      assert !CompletesAt(room, turns[0], id);
      StuckUntilPublished(r, max, room, turns[0], id);
      ReachableAdvance(r, max, room, turns[0]);
      var next := Advance(r, max, room, turns[0]);
      forall i | 0 <= i < |turns| - 1
        ensures !CompletesAt(Run(r, max, next, turns[1..][..i]), turns[1..][i], id)
      {
        assert turns[..i + 1][0] == turns[0] && turns[..i + 1][1..] == turns[1..][..i];
        assert !CompletesAt(Run(r, max, room, turns[..i + 1]), turns[i + 1], id);
      }
      StuckInRuns(r, max, next, turns[1..], id);
    }
  }

  lemma ParkedIsStuck(r: Rules, t: Track)
    requires Inv(r, t) && Parked(t)
    ensures forall u | u in t.item.entry.value.recorded :: t.item.entry.value.recorded[u].grant in t.revoked
    ensures forall expected :: StartUnpublish(t.item, expected).Err? && Delete(t.item, expected).Err?
  {
    ParkedGrantsAreRevoked(r, t);
    hide Inv;
  }

  lemma ParkedStep(r: Rules, max: nat, taken: set<string>, t: Track, step: Step)
    requires Inv(r, t) && Parked(t)
    ensures var after := Next(r, max, taken, t, step);
      if CompletesPublication(t, step) then !Parked(after)
      else Parked(after) && after.item.entry.value.recorded == t.item.entry.value.recorded
  {
    hide EntryInv, EventsInv, LedgerInv, Apply, DoComplete, DoCompensate, DoSettle;
    match step
    case Do(expected, op) => ParkedStays(r, t.item, expected, taken, op);
    case Complete(key, fault) => ParkedCompletion(r, max, t, key, fault);
    case Compensate(key, fault) => ParkedCompensation(t, key, fault);
    case Settle(key, fault) => ParkedSettling(t, key, fault);
    case _ =>
  }

  lemma ParkedCompensation(t: Track, key: Key, fault: Fault)
    requires Parked(t)
    ensures var after := DoCompensate(t, key, fault);
      Parked(after) && after.item.entry.value.recorded == t.item.entry.value.recorded
  {
    hide Compensated;
  }

  lemma ParkedSettling(t: Track, key: Key, fault: Fault)
    requires Parked(t)
    ensures var after := DoSettle(t, key, fault);
      Parked(after) && after.item.entry.value.recorded == t.item.entry.value.recorded
  {
  }

  lemma ParkedCompletion(r: Rules, max: nat, t: Track, key: Key, fault: Fault)
    requires Inv(r, t) && Parked(t)
    ensures var after := DoComplete(r, max, t, key, fault);
      if CompletesPublication(t, Complete(key, fault)) then !Parked(after)
      else Parked(after) && after.item.entry.value.recorded == t.item.entry.value.recorded
  {
    hide LedgerInv;
    if At(t, key, Claimed) {
      assert AttemptInv(t, key);
      assert EventInv(t.item.entry, key, t.item.outbox[key]);
      if key.PublishKey? { PublicationCompletes(r, t, key.version); }
      hide EventsInv, EntryInv, CompletePublish;
    }
  }

  lemma ParkedGrantsAreRevoked(r: Rules, t: Track)
    requires Inv(r, t) && t.item.entry.Some? && t.item.entry.value.rows == map[] && !t.item.entry.value.status.Unpublishing?
    ensures forall u | u in t.item.entry.value.recorded :: t.item.entry.value.recorded[u].grant in t.revoked
  {
    hide EventsInv, LedgerInv;
  }

  lemma ParkedStays(r: Rules, item: Item, expected: Version, taken: set<string>, op: Op)
    requires item.entry.Some? && item.entry.value.rows == map[] && item.entry.value.recorded != map[] && !item.entry.value.status.Unpublishing?
    ensures var after := Apply(r, item, expected, taken, op);
      && (op.OpStartUnpublish? || op.OpDelete? ==> after.Err?)
      && (after.Ok? ==>
            && after.value.entry.Some?
            && after.value.entry.value.rows == map[] && after.value.entry.value.recorded == item.entry.value.recorded
            && !after.value.entry.value.status.Unpublishing?)
  {
  }

  // ---------------------------------------------------------------- the failures happen

  /** An event with nobody at work on it, whose next attempt is the last. */
  predicate LastAttemptAhead(max: nat, t: Track, key: Key) {
    key in t.item.outbox && LiveEvent(t.item.outbox[key]) && key !in t.attempts && t.item.outbox[key].attempts + 1 >= max
  }

  /** The same item once its event has been tried more often. */
  predicate Retried(before: Track, after: Track, key: Key) {
    && key in before.item.outbox && key in after.item.outbox
    && after == before.(item := before.item.(outbox := before.item.outbox[key := after.item.outbox[key]]))
    && after.item.outbox[key] ==
       before.item.outbox[key].(status := after.item.outbox[key].status, attempts := after.item.outbox[key].attempts)
  }

  /** Attempts that die one after the other use the attempts up. */
  lemma {:induction false} AttemptsRunOut(r: Rules, max: nat, room: Newsroom, id: Id, key: Key, now: Track) returns (t: Track)
    requires id in room && Reachable(r, max, room[id := now])
    requires key in now.item.outbox && LiveEvent(now.item.outbox[key]) && key !in now.attempts
    ensures Reachable(r, max, room[id := t]) && Retried(now, t, key) && LastAttemptAhead(max, t, key)
    decreases max - now.item.outbox[key].attempts
  {
    hide Reachable;
    if now.item.outbox[key].attempts + 1 >= max {
      t := now;
    } else {
      var claimed := DoClaim(now, key);
      var dead := End(claimed, key);
      AdvanceOne(r, max, room, room[id := now], id, Claim(key));
      AdvanceOne(r, max, room, room[id := claimed], id, Crash(key));
      assert dead.attempts == now.attempts;
      t := AttemptsRunOut(r, max, room, id, key, dead);
    }
  }

  lemma StartedPublication(r: Rules, content: NewsContent)
    requires Publishable(r, content)
    ensures StartPublish(r, NewItem(content), 1).Ok?
    ensures var t := NewTrack(content).(item := StartPublish(r, NewItem(content), 1).value);
      && PublishKey(2) in t.item.outbox && t.item.outbox[PublishKey(2)] == Event(Waiting, 0, content.covers, map[])
      && t.item.entry.Some? && t.item.entry.value.content == content && t.item.entry.value.status.Publishing?
      && t.item.entry.value.version == 2
  {
  }

  lemma CreatedItem(r: Rules, max: nat, content: NewsContent) returns (room: Newsroom)
    ensures room == map["a" := NewTrack(content)] && Reachable(r, max, room)
  {
    EmptyIsReachable(r, max);
    ReachableAdvance(r, max, map[], Create("a", content));
    room := Advance(r, max, map[], Create("a", content));
    assert SlugsOfOthers(map[], "a") == {};
  }

  /** A leak with only one of two grants collected does happen, however many attempts there are:
      the reply to the second grant is lost on the last one. */
  lemma PartialLeakHappens(r: Rules, max: nat, content: NewsContent) returns (room: Newsroom)
    requires Publishable(r, content) && content.covers.Keys == {Detail, HomePage}
    ensures Reachable(r, max, room) && "a" in room
    ensures FailedAt(room["a"].item.outbox, 2)
    ensures RevocationQueued(room["a"], Grant(Detail, 2)) && Leaked(room["a"], Grant(HomePage, 2))
  {
    hide Reachable, Leaked, RevocationQueued, FailedAt;
    var created := CreatedItem(r, max, content);
    StartedPublication(r, content);
    var started := Next(r, max, SlugsOfOthers(created, "a"), created["a"], Do(1, OpStartPublish));
    AdvanceOne(r, max, created, created, "a", Do(1, OpStartPublish));
    var last := AttemptsRunOut(r, max, created, "a", PublishKey(2), started);
    ItemHolds(r, max, created["a" := last], "a");
    var taken := SlugsOfOthers(created, "a");
    PartialLeak(r, max, taken, last, 2);
    var steps := [Claim(PublishKey(2)), CreateGrant(PublishKey(2), Fine), CreateGrant(PublishKey(2), LostAfter),
                  Confirm(PublishKey(2), true), Compensate(PublishKey(2), Fine)];
    var leaked := FiveSteps(r, max, created, "a", last, steps);
    room := created["a" := leaked];
  }

  /** Five steps on one item. */
  lemma FiveSteps(r: Rules, max: nat, room: Newsroom, id: Id, now: Track, steps: seq<Step>) returns (t: Track)
    requires id in room && Reachable(r, max, room[id := now]) && |steps| == 5
    ensures Reachable(r, max, room[id := t])
    ensures var taken := SlugsOfOthers(room, id);
      t == Next(r, max, taken, Next(r, max, taken, Next(r, max, taken, Next(r, max, taken,
             Next(r, max, taken, now, steps[0]), steps[1]), steps[2]), steps[3]), steps[4])
  {
    hide Reachable, Next;
    var taken := SlugsOfOthers(room, id);
    t := now;
    for i := 0 to 5
      invariant Reachable(r, max, room[id := t])
      invariant i == 0 ==> t == now
      invariant i == 1 ==> t == Next(r, max, taken, now, steps[0])
      invariant i == 2 ==> t == Next(r, max, taken, Next(r, max, taken, now, steps[0]), steps[1])
      invariant i == 3 ==> t == Next(r, max, taken, Next(r, max, taken, Next(r, max, taken, now, steps[0]), steps[1]), steps[2])
      invariant i == 4 ==> t == Next(r, max, taken, Next(r, max, taken, Next(r, max, taken,
                                  Next(r, max, taken, now, steps[0]), steps[1]), steps[2]), steps[3])
      invariant i == 5 ==> t == Next(r, max, taken, Next(r, max, taken, Next(r, max, taken, Next(r, max, taken,
                                  Next(r, max, taken, now, steps[0]), steps[1]), steps[2]), steps[3]), steps[4])
    {
      AdvanceOne(r, max, room, room[id := t], id, steps[i]);
      assert room[id := t][id := Next(r, max, taken, t, steps[i])] == room[id := Next(r, max, taken, t, steps[i])];
      t := Next(r, max, taken, t, steps[i]);
    }
  }

  /** The last attempt at a withdrawal, its completion reporting an error: the event is failed
      either way, but the item is either left with revoked grants, or in fact withdrawn. */
  lemma LastWithdrawalAttempt(r: Rules, max: nat, room: Newsroom, id: Id, v: Version, fault: Fault) returns (after: Newsroom)
    requires Reachable(r, max, room) && id in room && LastAttemptAhead(max, room[id], UnpublishKey(v)) && !fault.Fine?
    ensures Reachable(r, max, after) && id in after && after == room[id := after[id]]
    ensures room[id].item.entry.Some? && after[id].item.entry.Some?
    ensures UnpublishKey(v) in after[id].item.outbox && after[id].item.outbox[UnpublishKey(v)].status.FailedEvent?
    ensures var e, n := room[id].item.entry.value, after[id].item.entry.value;
      && (forall u | u in e.recorded :: e.recorded[u].grant in after[id].revoked)
      && n == if fault.LostBefore? then e.(status := UnpublishFailed)
              else e.(status := Unpublished, recorded := map[], publishedVersion := None)
  {
    hide Reachable;
    ItemHolds(r, max, room, id);
    LastWithdrawal(r, max, SlugsOfOthers(room, id), room[id], v, fault);
    var key := UnpublishKey(v);
    hide Next, Inv;
    assert room[id := room[id]] == room;
    var failed := FiveSteps(r, max, room, id, room[id],
                            [Claim(key), RevokeNext(key, Fine), RevokeNext(key, Fine), Complete(key, fault), Settle(key, Fine)]);
    after := room[id := failed];
  }

  /** An item with one cover, its grant obtained by the first attempt. */
  predicate CoverGranted(t: Track, content: NewsContent) {
    && t.item.entry == Some(Entry(2, Publishing, content, map[1 := content, 2 := content], map[], map[], None))
    && PublishKey(2) in t.item.outbox
    && t.item.outbox == map[PublishKey(2) := Event(Processing, 1, content.covers, map[])]
    && t.attempts == map[PublishKey(2) := Attempt(Claimed, {Detail})]
  }

  lemma CoverIsGranted(r: Rules, max: nat, taken: set<string>, content: NewsContent)
    requires Publishable(r, content) && content.covers.Keys == {Detail}
    ensures var key := PublishKey(2);
      var claimed := Next(r, max, taken, Next(r, max, taken, NewTrack(content), Do(1, OpStartPublish)), Claim(key));
      CoverGranted(Next(r, max, taken, claimed, CreateGrant(key, Fine)), content)
  {
    var key := PublishKey(2);
    StartedPublication(r, content);
    var claimed := DoClaim(NewTrack(content).(item := StartPublish(r, NewItem(content), 1).value), key);
    assert At(claimed, key, Claimed) && claimed.attempts == map[key := Attempt(Claimed, {})];
    var granted := DoCreateGrant(max, claimed, key, Fine);
    assert Wanted(key, claimed.item.outbox[key]) == {Detail} && NextUsage({Detail}, {}) == Detail;
    assert {} + {Detail} == {Detail};
    assert granted.attempts == map[key := Attempt(Claimed, {Detail})];
  }

  lemma CoverIsPublished(r: Rules, max: nat, t: Track, content: NewsContent)
    requires CoverGranted(t, content) && content.covers.Keys == {Detail} && content.translations != map[]
    ensures var published := DoComplete(r, max, t, PublishKey(2), Fine);
      && published.attempts == map[]
      && published.item.outbox == map[PublishKey(2) := Event(Delivered, 1, content.covers, map[])]
      && published.item.entry.Some?
      && var e := published.item.entry.value;
        && e.version == 2 && e.status.Published? && e.rows != map[] && e.recorded != map[]
  {
    hide Displaced;
    var assets := GrantsFor(content.covers, 2);
    NothingDisplaced(Marked(t.item.outbox, PublishKey(2), Delivered), assets);
    assert assets.Keys == {Detail};
    var l :| l in content.translations;
    assert l in RowsOf(r, content, assets, 2);
    assert DoComplete(r, max, t, PublishKey(2), Fine).attempts == map[];
  }

  /** An item with a cover, published by one undisturbed attempt and put up for withdrawal. */
  lemma CoveredSteps(r: Rules, max: nat, taken: set<string>, content: NewsContent)
    requires Publishable(r, content) && content.covers.Keys == {Detail}
    ensures var key := PublishKey(2);
      var claimed := Next(r, max, taken, Next(r, max, taken, NewTrack(content), Do(1, OpStartPublish)), Claim(key));
      var published := Next(r, max, taken, Next(r, max, taken, claimed, CreateGrant(key, Fine)), Complete(key, Fine));
      var t := Next(r, max, taken, published, Do(2, OpStartUnpublish));
      && t.attempts == map[] && t.item.entry.Some? && t.item.entry.value.recorded != map[]
      && t.item.entry.value.rows == map[]
      && UnpublishKey(3) in t.item.outbox && LiveEvent(t.item.outbox[UnpublishKey(3)])
  {
    hide DoClaim, DoCreateGrant, DoComplete, StartPublish, CoverGranted;
    var key := PublishKey(2);
    CoverIsGranted(r, max, taken, content);
    var claimed := Next(r, max, taken, Next(r, max, taken, NewTrack(content), Do(1, OpStartPublish)), Claim(key));
    CoverIsPublished(r, max, Next(r, max, taken, claimed, CreateGrant(key, Fine)), content);
  }

  lemma NothingDisplaced(outbox: Outbox, assets: map<Usage, Recorded>)
    ensures Displaced(Displaced(outbox, map[], assets, Detail), map[], assets, HomePage) == outbox
  {
  }

  /** Withdrawals before their last attempt happen, and so do items left with revoked grants. */
  lemma ParkedHappens(r: Rules, max: nat, content: NewsContent) returns (before: Newsroom, room: Newsroom)
    requires Publishable(r, content) && content.covers.Keys == {Detail}
    ensures Reachable(r, max, before) && "a" in before && LastAttemptAhead(max, before["a"], UnpublishKey(3))
    ensures Reachable(r, max, room) && "a" in room && Parked(room["a"]) && room["a"].item.entry.value.status.UnpublishFailed?
  {
    hide Reachable;
    var empty := CreatedItem(r, max, content);
    var key := PublishKey(2);
    CoveredSteps(r, max, SlugsOfOthers(empty, "a"), content);
    hide Next, LastAttemptAhead;
    assert empty["a" := empty["a"]] == empty;
    var waiting := FiveSteps(r, max, empty, "a", empty["a"],
                             [Do(1, OpStartPublish), Claim(key), CreateGrant(key, Fine), Complete(key, Fine), Do(2, OpStartUnpublish)]);
    var last := AttemptsRunOut(r, max, empty, "a", UnpublishKey(3), waiting);
    before := empty["a" := last];
    room := LastWithdrawalAttempt(r, max, before, "a", 3, LostBefore);
  }
}
