/** What publication and withdrawal of news items guarantee over whole runs. */
module NewsGuarantees {
  import opened ContentModel
  import opened News
  import opened NewsInvariants

  ghost predicate Reachable(r: Rules, max: nat, room: Newsroom) {
    exists turns :: room == Run(r, max, map[], turns)
  }

  lemma ReachableHolds(r: Rules, max: nat, room: Newsroom)
    requires Reachable(r, max, room)
    ensures RoomInv(r, room)
  {
    var turns :| room == Run(r, max, map[], turns);
    RunKeeps(r, max, map[], turns);
  }

  lemma ReachableAdvance(r: Rules, max: nat, room: Newsroom, turn: Turn)
    requires Reachable(r, max, room)
    ensures Reachable(r, max, Advance(r, max, room, turn))
  {
    var turns :| room == Run(r, max, map[], turns);
    RunAppends(r, max, map[], turns, turn);
  }

  lemma {:induction false} RunAppends(r: Rules, max: nat, room: Newsroom, turns: seq<Turn>, turn: Turn)
    ensures Run(r, max, room, turns + [turn]) == Advance(r, max, Run(r, max, room, turns), turn)
    decreases turns
  {
    if turns == [] {
      assert turns + [turn] == [turn] && [turn][1..] == [];
    } else {
      assert (turns + [turn])[0] == turns[0] && (turns + [turn])[1..] == turns[1..] + [turn];
      RunAppends(r, max, Advance(r, max, room, turns[0]), turns[1..], turn);
    }
  }

  /** A step on one item, seen from a room that agrees on all other items. */
  lemma AdvanceOne(r: Rules, max: nat, room: Newsroom, now: Newsroom, id: Id, step: Step)
    requires id in room && id in now && now == room[id := now[id]] && Reachable(r, max, now)
    ensures Reachable(r, max, room[id := Next(r, max, SlugsOfOthers(room, id), now[id], step)])
  {
    hide Reachable, Next;
    ReachableAdvance(r, max, now, On(id, step));
    assert now.Keys == room.Keys;
    forall other | other in room && other != id ensures now[other] == room[other] {}
    assert SlugsOfOthers(now, id) == SlugsOfOthers(room, id) by {
      forall slug | slug in SlugsOfOthers(now, id) ensures slug in SlugsOfOthers(room, id) {}
      forall slug | slug in SlugsOfOthers(room, id) ensures slug in SlugsOfOthers(now, id) {
        var other :| other in room && other != id && room[other].item.entry.Some? && room[other].item.entry.value.content.slug == slug;
        assert other in now;
      }
    }
    assert Advance(r, max, now, On(id, step)) == room[id := Next(r, max, SlugsOfOthers(room, id), now[id], step)];
  }

  lemma EmptyIsReachable(r: Rules, max: nat)
    ensures Reachable(r, max, map[])
  {
    assert Run(r, max, map[], []) == map[];
  }

  function NewTrack(content: NewsContent): Track {
    Track(NewItem(content), {}, {}, map[], {})
  }

  lemma ItemHolds(r: Rules, max: nat, room: Newsroom, id: Id)
    requires Reachable(r, max, room) && id in room
    ensures Inv(r, room[id])
  {
    ReachableHolds(r, max, room);
  }

  // ---------------------------------------------------------------- status, rows and events

  /** An entry is published exactly when readers see its current version; what readers see is one
      recorded revision in all its locales, never newer than the entry, with the recorded covers. */
  lemma StatusMatchesRows(r: Rules, max: nat, room: Newsroom, id: Id)
    requires Reachable(r, max, room) && id in room && room[id].item.entry.Some?
    ensures var e := room[id].item.entry.value;
      && (e.status.Published? <==> e.rows != map[] && forall l | l in e.rows :: e.rows[l].version == e.version)
      && (e.status.Published? ==> e.rows == RowsOf(r, e.content, e.recorded, e.version))
      && (e.rows != map[] ==>
            && e.publishedVersion.Some? && e.publishedVersion.value <= e.version && e.publishedVersion.value in e.revisions
            && e.rows == RowsOf(r, e.revisions[e.publishedVersion.value], e.recorded, e.publishedVersion.value)
            && e.recorded.Keys == e.revisions[e.publishedVersion.value].covers.Keys)
  {
    hide Reachable, Inv;
    ReachableHolds(r, max, room);
    EntryOf(r, room[id]);
    hide ExposureInv, RowsOf, GrantsFor;
    var e := room[id].item.entry.value;
    if e.rows != map[] { RowsCarryTheirVersion(r, e); }
  }

  lemma EntryOf(r: Rules, t: Track)
    requires Inv(r, t) && t.item.entry.Some?
    ensures EntryInv(r, t.item.entry.value, t.revoked)
  {
    hide EntryInv, EventsInv, LedgerInv, AttemptInv;
  }

  lemma RowsCarryTheirVersion(r: Rules, e: Entry)
    requires PublicInv(r, e) && e.rows != map[]
    ensures e.publishedVersion.Some? && forall l | l in e.rows :: e.rows[l].version == e.publishedVersion.value
    ensures e.recorded.Keys == e.revisions[e.publishedVersion.value].covers.Keys
    ensures exists l :: l in e.rows
  {
    var l :| l in e.rows;
  }

  /** An item is publishing or unpublishing exactly when it has one live event of that kind, and
      that event carries the item's version; so no item is ever stuck without an event. */
  lemma Lockstep(r: Rules, max: nat, room: Newsroom, id: Id, v: Version)
    requires Reachable(r, max, room) && id in room
    ensures var t := room[id];
      && (LiveAt(t.item.outbox, v) <==>
            t.item.entry.Some? && t.item.entry.value.status.Publishing? && t.item.entry.value.version == v)
      && (UnpublishKey(v) in t.item.outbox && LiveEvent(t.item.outbox[UnpublishKey(v)]) <==>
            t.item.entry.Some? && t.item.entry.value.status.Unpublishing? && t.item.entry.value.version == v)
  {
    ReachableHolds(r, max, room);
    var t := room[id];
    assert Inv(r, t);
    if PublishKey(v) in t.item.outbox { assert EventInv(t.item.entry, PublishKey(v), t.item.outbox[PublishKey(v)]); }
    if UnpublishKey(v) in t.item.outbox { assert EventInv(t.item.entry, UnpublishKey(v), t.item.outbox[UnpublishKey(v)]); }
  }

  /** No attempt that gets as far as completing finds its event superseded. */
  lemma CompletionIsNeverStale(r: Rules, max: nat, room: Newsroom, id: Id, key: Key)
    requires Reachable(r, max, room) && id in room && At(room[id], key, Claimed)
    requires key.PublishKey? || key.UnpublishKey?
    ensures var t := room[id];
      && Completed(r, t.item, key).Ok?
      && Completed(r, t.item, key).value.entry.Some?
      && var e := Completed(r, t.item, key).value.entry.value;
        && e.version == key.version
        && (if key.PublishKey? then e.status.Published? && e.rows != map[]
            else e.status.Unpublished? && e.rows == map[] && e.recorded == map[])
  {
    ReachableHolds(r, max, room);
    hide Inv, Completed, Reachable;
    assert Inv(r, room[id]);
    if key.PublishKey? { PublicationCompletes(r, room[id], key.version); } else { WithdrawalCompletes(r, room[id], key.version); }
  }

  lemma PublicationCompletes(r: Rules, t: Track, v: Version)
    requires Inv(r, t) && At(t, PublishKey(v), Claimed)
    ensures var done := Completed(r, t.item, PublishKey(v));
      && done.Ok? && done.value.entry.Some?
      && done.value.entry.value.version == v && done.value.entry.value.status.Published? && done.value.entry.value.rows != map[]
  {
    hide LedgerInv, Displaced;
    assert AttemptInv(t, PublishKey(v));
    assert EventInv(t.item.entry, PublishKey(v), t.item.outbox[PublishKey(v)]);
    CompletionKeepsEntry(r, t, v);
  }

  lemma WithdrawalCompletes(r: Rules, t: Track, v: Version)
    requires Inv(r, t) && At(t, UnpublishKey(v), Claimed)
    ensures var done := Completed(r, t.item, UnpublishKey(v));
      && done.Ok? && done.value.entry.Some?
      && done.value.entry.value.version == v && done.value.entry.value.status.Unpublished?
      && done.value.entry.value.rows == map[] && done.value.entry.value.recorded == map[]
  {
    hide LedgerInv;
    assert AttemptInv(t, UnpublishKey(v));
    assert EventInv(t.item.entry, UnpublishKey(v), t.item.outbox[UnpublishKey(v)]);
  }

  /** Publishing can be started exactly for an idle publishable item at the expected version. */
  lemma StartSucceedsExactly(r: Rules, max: nat, room: Newsroom, id: Id, expected: Version)
    requires Reachable(r, max, room) && id in room
    ensures StartPublish(r, room[id].item, expected).Ok? <==>
            var entry := room[id].item.entry;
            entry.Some? && entry.value.version == expected && !Busy(entry.value.status) && Publishable(r, entry.value.content)
  {
    ReachableHolds(r, max, room);
    var t := room[id];
    assert Inv(r, t);
    if PublishKey(expected + 1) in t.item.outbox {
      assert EventInv(t.item.entry, PublishKey(expected + 1), t.item.outbox[PublishKey(expected + 1)]);
    }
  }

  // ---------------------------------------------------------------- grants

  /** What readers can see is granted, and nobody is about to revoke it. */
  lemma LiveCoversAreGranted(r: Rules, max: nat, room: Newsroom, id: Id, u: Usage, key: Key)
    requires Reachable(r, max, room) && id in room && room[id].item.entry.Some?
    requires room[id].item.entry.value.rows != map[] && u in room[id].item.entry.value.recorded
    ensures var t := room[id];
      var g := t.item.entry.value.recorded[u].grant;
      && g in t.granted && g !in t.revoked && DeliveredAt(t.item.outbox, g.version)
      && (key in t.item.outbox && LiveEvent(t.item.outbox[key]) && u in t.item.outbox[key].revoking ==>
            t.item.outbox[key].revoking[u].grant != g)
  {
    hide Reachable, Inv;
    ReachableHolds(r, max, room);
    LiveCoverHolds(r, room[id], u);
    LiveCoverIsNoTarget(r, room[id], u, key);
  }

  lemma LiveCoverHolds(r: Rules, t: Track, u: Usage)
    requires Inv(r, t) && t.item.entry.Some? && t.item.entry.value.rows != map[] && u in t.item.entry.value.recorded
    ensures var g := t.item.entry.value.recorded[u].grant;
      && Records(RecordedOf(t.item.entry), g) && g in t.granted && g !in t.revoked && DeliveredAt(t.item.outbox, g.version)
  {
    hide EventsInv, AttemptInv, StatusInv;
    GrantsAreTheirOwn(r, t.item.entry.value);
  }

  lemma LiveCoverIsNoTarget(r: Rules, t: Track, u: Usage, key: Key)
    requires Inv(r, t) && t.item.entry.Some? && t.item.entry.value.rows != map[] && u in t.item.entry.value.recorded
    requires Records(RecordedOf(t.item.entry), t.item.entry.value.recorded[u].grant)
    ensures key in t.item.outbox && LiveEvent(t.item.outbox[key]) && u in t.item.outbox[key].revoking ==>
      t.item.outbox[key].revoking[u].grant != t.item.entry.value.recorded[u].grant
  {
    hide AttemptInv;
    if key in t.item.outbox { assert EventInv(t.item.entry, key, t.item.outbox[key]); }
  }

  predicate RevocationQueued(t: Track, g: Grant) {
    RevokeKey(g) in t.item.outbox || CompensateKey(g) in t.item.outbox
  }

  predicate Shown(t: Track, g: Grant) {
    Records(RecordedOf(t.item.entry), g) && g !in t.revoked
  }

  predicate Leaked(t: Track, g: Grant) {
    && g in t.granted && g !in t.revoked
    && !Records(RecordedOf(t.item.entry), g) && !RevocationQueued(t, g) && !LiveAt(t.item.outbox, g.version)
  }

  /** Every grant that is not revoked yet is recorded, or queued for revocation, or held by a
      publication still to be settled, or leaked, and never two of the first three. */
  lemma GrantHasOnePlace(r: Rules, max: nat, room: Newsroom, id: Id, g: Grant)
    requires Reachable(r, max, room) && id in room && g in room[id].granted
    ensures var t := room[id];
      && (Records(RecordedOf(t.item.entry), g) ==> !RevocationQueued(t, g) && !LiveAt(t.item.outbox, g.version))
      && (RevocationQueued(t, g) ==> !LiveAt(t.item.outbox, g.version))
      && (g in t.revoked || Records(RecordedOf(t.item.entry), g) || RevocationQueued(t, g) || LiveAt(t.item.outbox, g.version) || Leaked(t, g))
  {
    hide Reachable, Inv;
    ReachableHolds(r, max, room);
    OnePlace(r, room[id], g);
  }

  lemma OnePlace(r: Rules, t: Track, g: Grant)
    requires Inv(r, t)
    ensures Records(RecordedOf(t.item.entry), g) ==> !RevocationQueued(t, g) && !LiveAt(t.item.outbox, g.version)
    ensures RevocationQueued(t, g) ==> !LiveAt(t.item.outbox, g.version)
  {
    hide EntryInv, EventsInv, AttemptInv;
  }

  /** A revocation event is over, delivered or failed, only after its grant was revoked. */
  lemma RevocationsAreDone(r: Rules, max: nat, room: Newsroom, id: Id, key: Key)
    requires Reachable(r, max, room) && id in room && key in room[id].item.outbox
    requires (key.RevokeKey? || key.CompensateKey?) && !LiveEvent(room[id].item.outbox[key])
    ensures key.grant in room[id].revoked
  {
    ReachableHolds(r, max, room);
    assert Inv(r, room[id]);
  }

  /** What leaks a grant: its publication is given up in an attempt that does not hold it,
      either before it obtained any grant, or with only the other one. */
  predicate LeakStep(t: Track, step: Step, g: Grant) {
    var key := PublishKey(g.version);
    && g in t.granted
    && ( || (step.Settle? && step.key == key && !step.fault.LostBefore? && At(t, key, Settling(ToFail)))
         || (step.Compensate? && step.key == key && !step.fault.LostBefore? && At(t, key, Compensating) &&
             g.usage !in t.attempts[key].done))
  }

  /** A step leaks a grant exactly when it is such a step. */
  lemma LeaksExactlyWhenGivenUp(r: Rules, max: nat, taken: set<string>, t: Track, step: Step, g: Grant)
    requires Inv(r, t)
    ensures !Leaked(t, g) && Leaked(Next(r, max, taken, t, step), g) <==> LeakStep(t, step, g)
    ensures Leaked(t, g) ==> Leaked(Next(r, max, taken, t, step), g)
  {
    hide Leaked, LeakStep, Next;
    NextKeeps(r, max, taken, t, step);
    DroppedIsLeaked(r, t, g);
    DroppedIsLeaked(r, Next(r, max, taken, t, step), g);
    DropsExactly(r, max, taken, t, step, g);
  }

  /** The history variable records what leaked, once the grant exists. */
  lemma DroppedIsLeaked(r: Rules, t: Track, g: Grant)
    requires Inv(r, t)
    ensures Leaked(t, g) <==> g in t.granted && g in t.dropped
  {
  }

  predicate Lost(t: Track, g: Grant) {
    g in t.granted && g in t.dropped
  }

  lemma DropsExactly(r: Rules, max: nat, taken: set<string>, t: Track, step: Step, g: Grant)
    requires Inv(r, t)
    ensures var after := Next(r, max, taken, t, step);
      && (Lost(after, g) && !Lost(t, g) <==> LeakStep(t, step, g))
      && (Lost(t, g) ==> Lost(after, g))
  {
    hide Apply, DoComplete, DoCompensate, DoSettle, DoCreateGrant, DoRevokeNext, EntryInv, EventsInv, LedgerInv;
    match step
    case Complete(key, fault) => CompleteDropsNothing(r, max, t, key, fault);
    case CreateGrant(key, fault) => CreatingDropsNothing(r, max, t, key, fault, g);
    case RevokeNext(key, fault) => RevokingDropsNothing(t, key, fault);
    case Compensate(key, fault) => CompensateDrops(r, t, key, fault, g);
    case Settle(key, fault) => SettleDrops(r, t, key, fault, g);
    case _ =>
  }

  lemma CompleteDropsNothing(r: Rules, max: nat, t: Track, key: Key, fault: Fault)
    ensures var after := DoComplete(r, max, t, key, fault); after.granted == t.granted && after.dropped == t.dropped
  {
    hide Completed;
  }

  lemma RevokingDropsNothing(t: Track, key: Key, fault: Fault)
    ensures var after := DoRevokeNext(t, key, fault); after.granted == t.granted && after.dropped == t.dropped
  {
  }

  lemma CreatingDropsNothing(r: Rules, max: nat, t: Track, key: Key, fault: Fault, g: Grant)
    requires Inv(r, t)
    ensures Lost(DoCreateGrant(max, t, key, fault), g) == Lost(t, g)
  {
    if At(t, key, Claimed) && key.PublishKey? {
      assert AttemptInv(t, key);
      if g.version == key.version { LiveIsNotDropped(t, key.version, g); }
    }
    hide Inv;
  }

  lemma LiveIsNotDropped(t: Track, v: Version, g: Grant)
    requires LedgerInv(t.item.outbox, RecordedOf(t.item.entry), t.granted, t.revoked, t.dropped)
    requires LiveAt(t.item.outbox, v) && g.version == v
    ensures g !in t.dropped && (g in t.granted ==> Planned(t.item.outbox, g))
  {
  }

  lemma CompensateDrops(r: Rules, t: Track, key: Key, fault: Fault, g: Grant)
    requires Inv(r, t)
    ensures var after := DoCompensate(t, key, fault);
      && (Lost(after, g) && !Lost(t, g) <==> LeakStep(t, Compensate(key, fault), g))
      && (Lost(t, g) ==> Lost(after, g))
  {
    if At(t, key, Compensating) && key.PublishKey? {
      assert AttemptInv(t, key);
      if g.version == key.version { LiveIsNotDropped(t, key.version, g); }
    }
    hide Inv, FailPublish;
  }

  lemma SettleDrops(r: Rules, t: Track, key: Key, fault: Fault, g: Grant)
    requires Inv(r, t)
    ensures var after := DoSettle(t, key, fault);
      && (Lost(after, g) && !Lost(t, g) <==> LeakStep(t, Settle(key, fault), g))
      && (Lost(t, g) ==> Lost(after, g))
  {
    if At(t, key, Settling(ToFail)) && key.PublishKey? {
      assert AttemptInv(t, key);
      if g.version == key.version { LiveIsNotDropped(t, key.version, g); }
    }
    hide Inv, Fail;
  }

  /** Over whole runs: a grant is leaked exactly when some step of the run leaked it. */
  lemma {:induction false} LeakedExactly(r: Rules, max: nat, turns: seq<Turn>, id: Id, g: Grant)
    ensures var room := Run(r, max, map[], turns);
      id in room && Leaked(room[id], g) <==>
      exists i | 0 <= i < |turns| :: LeakTurn(Run(r, max, map[], turns[..i]), turns[i], id, g)
    decreases |turns|
  {
    hide Leaked, LeakTurn, Advance, RoomInv;
    if turns != [] {
      var n := |turns| - 1;
      var before := turns[..n];
      LeakedExactly(r, max, before, id, g);
      LeakTurnsExtend(r, max, turns, id, g);
      hide Run;
      assert turns == before + [turns[n]];
      RunAppends(r, max, map[], before, turns[n]);
      NothingHolds(r);
      RunKeeps(r, max, map[], before);
      TurnLeaks(r, max, Run(r, max, map[], before), turns[n], id, g);
    }
  }

  lemma NothingHolds(r: Rules)
    ensures RoomInv(r, map[])
  {
  }

  /** Some turn leaked the grant: the last one, or one before it. */
  lemma LeakTurnsExtend(r: Rules, max: nat, turns: seq<Turn>, id: Id, g: Grant)
    requires turns != []
    ensures var n := |turns| - 1;
      (exists i | 0 <= i < |turns| :: LeakTurn(Run(r, max, map[], turns[..i]), turns[i], id, g)) <==>
      (exists i | 0 <= i < n :: LeakTurn(Run(r, max, map[], turns[..n][..i]), turns[..n][i], id, g)) ||
      LeakTurn(Run(r, max, map[], turns[..n]), turns[n], id, g)
  {
    hide LeakTurn, Run;
    var n := |turns| - 1;
    var before := turns[..n];
    forall i | 0 <= i < n ensures before[..i] == turns[..i] && before[i] == turns[i] {}
    if exists i | 0 <= i < |turns| :: LeakTurn(Run(r, max, map[], turns[..i]), turns[i], id, g) {
      var i :| 0 <= i < |turns| && LeakTurn(Run(r, max, map[], turns[..i]), turns[i], id, g);
      if i < n { assert LeakTurn(Run(r, max, map[], before[..i]), before[i], id, g); }
    }
    if exists i | 0 <= i < n :: LeakTurn(Run(r, max, map[], before[..i]), before[i], id, g) {
      var i :| 0 <= i < n && LeakTurn(Run(r, max, map[], before[..i]), before[i], id, g);
      assert LeakTurn(Run(r, max, map[], turns[..i]), turns[i], id, g);
    }
  }

  predicate LeakTurn(room: Newsroom, turn: Turn, id: Id, g: Grant) {
    turn.On? && turn.id == id && id in room && LeakStep(room[id], turn.step, g)
  }

  lemma TurnLeaks(r: Rules, max: nat, room: Newsroom, turn: Turn, id: Id, g: Grant)
    requires RoomInv(r, room)
    ensures var after := Advance(r, max, room, turn);
      && (id in after && Leaked(after[id], g) <==> (id in room && Leaked(room[id], g)) || LeakTurn(room, turn, id, g))
  {
    hide LeakStep, Next, SlugsOfOthers, SlugsDiffer, Inv;
    if turn.On? && turn.id == id && id in room {
      hide Leaked;
      LeaksExactlyWhenGivenUp(r, max, SlugsOfOthers(room, id), room[id], turn.step, g);
    }
  }

  /** A recorded grant leaves its slot only revoked, or with its revocation queued. */
  lemma RecordedGrantsAreKept(r: Rules, max: nat, room: Newsroom, turn: Turn, id: Id, g: Grant)
    requires Reachable(r, max, room) && id in room && Records(RecordedOf(room[id].item.entry), g)
    ensures var after := Advance(r, max, room, turn);
      id in after && (Records(RecordedOf(after[id].item.entry), g) || RevokeKey(g) in after[id].item.outbox || g in after[id].revoked)
  {
    hide Inv, Next, Reachable, SlugsDiffer, SlugsOfOthers, Planned, DeliveredAt;
    ReachableHolds(r, max, room);
    AdvanceKeeps(r, max, room, turn);
    var after := Advance(r, max, room, turn);
    if turn.On? && turn.id == id {
      var taken := SlugsOfOthers(room, id);
      RecordedIsDelivered(r, room[id], g);
      DeliveredStays(r, max, taken, room[id], turn.step, g);
      DeliveredHasAPlace(r, after[id], g);
    }
  }

  lemma RecordedIsDelivered(r: Rules, t: Track, g: Grant)
    requires Inv(r, t) && Records(RecordedOf(t.item.entry), g)
    ensures Planned(t.item.outbox, g) && DeliveredAt(t.item.outbox, g.version)
  {
  }

  lemma DeliveredHasAPlace(r: Rules, t: Track, g: Grant)
    requires Inv(r, t) && Planned(t.item.outbox, g) && DeliveredAt(t.item.outbox, g.version)
    ensures g in t.granted && (Records(RecordedOf(t.item.entry), g) || RevokeKey(g) in t.item.outbox || g in t.revoked)
  {
  }

  /** A delivered publication stays delivered. */
  lemma DeliveredStays(r: Rules, max: nat, taken: set<string>, t: Track, step: Step, g: Grant)
    requires Inv(r, t) && Planned(t.item.outbox, g) && DeliveredAt(t.item.outbox, g.version)
    ensures var after := Next(r, max, taken, t, step);
      Planned(after.item.outbox, g) && DeliveredAt(after.item.outbox, g.version)
  {
    hide EntryInv, EventsInv, LedgerInv, Apply, DoComplete, DoCompensate, DoSettle;
    match step
    case Do(expected, op) => if Apply(r, t.item, expected, taken, op).Ok? { ApplyAddsEvents(r, t.item, expected, taken, op); }
    case Settle(key, fault) => DeliveredStaysOnSettle(t, key, fault, g);
    case Complete(key, fault) => DeliveredStaysOnComplete(r, max, t, key, fault, g);
    case Compensate(key, fault) => DeliveredStaysOnCompensate(t, key, fault, g);
    case _ =>
  }

  lemma DeliveredStaysOnSettle(t: Track, key: Key, fault: Fault, g: Grant)
    requires (forall k | k in t.attempts :: AttemptInv(t, k)) && Planned(t.item.outbox, g) && DeliveredAt(t.item.outbox, g.version)
    ensures var after := DoSettle(t, key, fault); Planned(after.item.outbox, g) && DeliveredAt(after.item.outbox, g.version)
  {
    if key in t.attempts { assert AttemptInv(t, key); }
  }

  lemma DeliveredStaysOnComplete(r: Rules, max: nat, t: Track, key: Key, fault: Fault, g: Grant)
    requires Planned(t.item.outbox, g) && DeliveredAt(t.item.outbox, g.version)
    ensures var after := DoComplete(r, max, t, key, fault); Planned(after.item.outbox, g) && DeliveredAt(after.item.outbox, g.version)
  {
    hide Completed;
    if key in t.item.outbox && Completed(r, t.item, key).Ok? { CompletionAddsEvents(r, t.item, key); }
  }

  lemma DeliveredStaysOnCompensate(t: Track, key: Key, fault: Fault, g: Grant)
    requires (forall k | k in t.attempts :: AttemptInv(t, k)) && Planned(t.item.outbox, g) && DeliveredAt(t.item.outbox, g.version)
    ensures var after := DoCompensate(t, key, fault); Planned(after.item.outbox, g) && DeliveredAt(after.item.outbox, g.version)
  {
    hide Compensated;
    if At(t, key, Compensating) && key.PublishKey? {
      assert AttemptInv(t, key);
      CompensatedOutbox(Fail(t.item, key).outbox, t.item.outbox[key].covers, key.version, t.attempts[key].done);
    }
  }

  /** A transaction of an administrator changes no event that is there. */
  lemma ApplyAddsEvents(r: Rules, item: Item, expected: Version, taken: set<string>, op: Op)
    requires Apply(r, item, expected, taken, op).Ok?
    ensures var after := Apply(r, item, expected, taken, op).value.outbox;
      forall k | k in item.outbox :: k in after && after[k] == item.outbox[k]
  {
  }

  /** Completing an event changes no other event. */
  lemma CompletionAddsEvents(r: Rules, item: Item, key: Key)
    requires key in item.outbox && Completed(r, item, key).Ok?
    ensures var after := Completed(r, item, key).value.outbox;
      forall k | k in item.outbox :: k in after && after[k] == if k == key then item.outbox[k].(status := Delivered) else item.outbox[k]
  {
    hide Displaced, Matches, Live, GrantsFor;
    if key.PublishKey? && item.entry.Some? {
      DisplacingAdds(Marked(item.outbox, key, Delivered), item.entry.value.recorded, GrantsFor(item.outbox[key].covers, key.version));
    }
  }

  lemma DisplacingAdds(outbox: Outbox, prior: map<Usage, Recorded>, assets: map<Usage, Recorded>)
    ensures var after := Displaced(Displaced(outbox, prior, assets, Detail), prior, assets, HomePage);
      forall k | k in outbox :: k in after && after[k] == outbox[k]
  {
  }

  /** However an attempt on a publication ends, its event was delivered, or is still to be
      handled, or failed with every grant of the attempt queued for revocation. */
  lemma AttemptOutcome(r: Rules, max: nat, room: Newsroom, id: Id, v: Version, step: Step)
    requires Reachable(r, max, room) && id in room && PublishKey(v) in room[id].attempts
    requires PublishKey(v) !in Next(r, max, SlugsOfOthers(room, id), room[id], step).attempts
    ensures var after := Next(r, max, SlugsOfOthers(room, id), room[id], step);
      var done := room[id].attempts[PublishKey(v)].done;
      || (DeliveredAt(after.item.outbox, v) && forall u | u in done ::
            Shown(after, Grant(u, v)) || RevokeKey(Grant(u, v)) in after.item.outbox || Grant(u, v) in after.revoked)
      || (LiveAt(after.item.outbox, v) && forall u | u in done :: Grant(u, v) in after.granted)
      || (FailedAt(after.item.outbox, v) && forall u | u in done :: CompensateKey(Grant(u, v)) in after.item.outbox)
  {
    ReachableHolds(r, max, room);
    var t := room[id];
    var after := Next(r, max, SlugsOfOthers(room, id), t, step);
    NextKeeps(r, max, SlugsOfOthers(room, id), t, step);
    assert AttemptInv(t, PublishKey(v));
    EndingStep(r, max, SlugsOfOthers(room, id), t, step, v);
    hide Next;
  }

  /** The steps that can end an attempt forget none of its grants. */
  lemma EndingStep(r: Rules, max: nat, taken: set<string>, t: Track, step: Step, v: Version)
    requires Inv(r, t) && PublishKey(v) in t.attempts
    requires PublishKey(v) !in Next(r, max, taken, t, step).attempts
    ensures var after := Next(r, max, taken, t, step);
      && after.granted == t.granted && PublishKey(v) in after.item.outbox
      && after.item.outbox[PublishKey(v)].covers == t.item.outbox[PublishKey(v)].covers
      && forall u | u in t.attempts[PublishKey(v)].done :: Grant(u, v) !in after.dropped
  {
    hide EntryInv, EventsInv, LedgerInv, Apply, DoComplete, DoCompensate, DoSettle, Completed;
    assert AttemptInv(t, PublishKey(v));
    match step
    case Settle(key, fault) => SettleEnds(t, key, fault, v);
    case Complete(key, fault) => CompleteEnds(r, max, t, key, fault, v);
    case Compensate(key, fault) => CompensateEnds(t, key, fault, v);
    case _ =>
  }

  lemma SettleEnds(t: Track, key: Key, fault: Fault, v: Version)
    requires PublishKey(v) in t.attempts && AttemptInv(t, PublishKey(v)) && PublishKey(v) !in DoSettle(t, key, fault).attempts
    ensures var after := DoSettle(t, key, fault);
      && after.granted == t.granted && PublishKey(v) in after.item.outbox
      && after.item.outbox[PublishKey(v)].covers == t.item.outbox[PublishKey(v)].covers
      && forall u | u in t.attempts[PublishKey(v)].done :: Grant(u, v) !in after.dropped
  {
  }

  lemma CompleteEnds(r: Rules, max: nat, t: Track, key: Key, fault: Fault, v: Version)
    requires PublishKey(v) in t.attempts && PublishKey(v) in t.item.outbox
    ensures var after := DoComplete(r, max, t, key, fault);
      && PublishKey(v) in after.item.outbox
      && after.item.outbox[PublishKey(v)].covers == t.item.outbox[PublishKey(v)].covers
      && after.granted == t.granted && after.dropped == t.dropped
      && (key != PublishKey(v) ==> PublishKey(v) in after.attempts)
  {
    hide Completed;
    if key in t.item.outbox && Completed(r, t.item, key).Ok? { CompletionAddsEvents(r, t.item, key); }
  }

  lemma CompensateEnds(t: Track, key: Key, fault: Fault, v: Version)
    requires PublishKey(v) in t.attempts && PublishKey(v) in t.item.outbox
    requires key in t.attempts && key.PublishKey? && key in t.item.outbox ==> t.attempts[key].done <= t.item.outbox[key].covers.Keys
    ensures var after := DoCompensate(t, key, fault);
      && PublishKey(v) in after.item.outbox
      && after.item.outbox[PublishKey(v)].covers == t.item.outbox[PublishKey(v)].covers
      && after.granted == t.granted
      && (key != PublishKey(v) ==> PublishKey(v) in after.attempts)
      && forall u | u in t.attempts[PublishKey(v)].done && Grant(u, v) !in t.dropped :: Grant(u, v) !in after.dropped
  {
    if At(t, key, Compensating) && key.PublishKey? {
      CompensatedOutbox(Fail(t.item, key).outbox, t.item.outbox[key].covers, key.version, t.attempts[key].done);
      hide Compensated;
    }
  }

  // ---------------------------------------------------------------- deleting

  /** The step completes a publication of the item. */
  predicate CompletesPublication(t: Track, step: Step) {
    && step.Complete? && step.key.PublishKey? && !step.fault.LostBefore?
    && At(t, step.key, Claimed) && t.attempts[step.key].done == Wanted(step.key, t.item.outbox[step.key])
  }

  predicate CompletesAt(room: Newsroom, turn: Turn, id: Id) {
    turn.On? && turn.id == id && id in room && CompletesPublication(room[id], turn.step)
  }

  /** An item is deleted exactly when it is idle, at the expected version, and nothing of it is or
      was left public: in particular not after a failed withdrawal of grants, whatever was
      edited since. */
  lemma DeleteSucceedsExactly(r: Rules, max: nat, room: Newsroom, id: Id, expected: Version)
    requires Reachable(r, max, room) && id in room
    ensures Delete(room[id].item, expected).Ok? <==>
            var entry := room[id].item.entry;
            && entry.Some? && entry.value.version == expected
            && (entry.value.status.Draft? || entry.value.status.Unpublished?)
            && (entry.value.publishedVersion.Some? ==>
                  entry.value.rows == map[] && entry.value.publishedVersion.value in entry.value.revisions
                  && entry.value.revisions[entry.value.publishedVersion.value].covers == map[])
  {
    hide Reachable, LedgerInv, EventsInv, AttemptInv, RowsOf, GrantsFor;
    ReachableHolds(r, max, room);
    assert Inv(r, room[id]);
    if room[id].item.entry.Some? && room[id].item.entry.value.publishedVersion.Some? {
      var e := room[id].item.entry.value;
      NoCoversNoGrants(e.revisions[e.publishedVersion.value].covers, e.publishedVersion.value);
    }
  }

  lemma NoCoversNoGrants(covers: map<Usage, string>, v: Version)
    ensures GrantsFor(covers, v) == map[] <==> covers == map[]
  {
    if GrantsFor(covers, v) == map[] { assert covers.Keys == GrantsFor(covers, v).Keys; }
  }

  // ---------------------------------------------------------------- restoring

  /** What a row shows, its version aside. */
  function Payload(row: NewsRow): NewsRow {
    row.(version := 0)
  }

  /** A revision once recorded stays as it is, as long as the entry exists. */
  lemma RevisionsStay(r: Rules, max: nat, taken: set<string>, t: Track, step: Step, w: Version)
    requires t.item.entry.Some? && w in t.item.entry.value.revisions
    ensures var after := Next(r, max, taken, t, step).item.entry;
      after.Some? ==> w in after.value.revisions && after.value.revisions[w] == t.item.entry.value.revisions[w]
  {
    hide Apply, DoComplete, DoCompensate;
    match step
    case Do(expected, op) => if Apply(r, t.item, expected, taken, op).Ok? { ApplyKeepsRevisions(r, t.item, expected, taken, op, w); }
    case Complete(key, fault) => CompletionKeepsRevisions(r, max, t, key, fault);
    case Compensate(key, fault) => CompensationKeepsRevisions(t, key, fault);
    case _ =>
  }

  lemma ApplyKeepsRevisions(r: Rules, item: Item, expected: Version, taken: set<string>, op: Op, w: Version)
    requires item.entry.Some? && w in item.entry.value.revisions && Apply(r, item, expected, taken, op).Ok?
    ensures var after := Apply(r, item, expected, taken, op).value.entry;
      after.Some? ==> w in after.value.revisions && after.value.revisions[w] == item.entry.value.revisions[w]
  {
  }

  lemma CompletionKeepsRevisions(r: Rules, max: nat, t: Track, key: Key, fault: Fault)
    requires t.item.entry.Some?
    ensures var after := DoComplete(r, max, t, key, fault).item.entry;
      after.Some? && after.value.revisions == t.item.entry.value.revisions
  {
    hide Displaced;
  }

  lemma CompensationKeepsRevisions(t: Track, key: Key, fault: Fault)
    requires t.item.entry.Some?
    ensures var after := DoCompensate(t, key, fault).item.entry;
      after.Some? && after.value.revisions == t.item.entry.value.revisions
  {
    hide Compensated;
  }

  /** Restoring a revision and publishing shows that revision again in all its locales; locales
      added since are shown too, so nothing else is shown exactly when there are none. */
  lemma RestoreThenPublish(r: Rules, item: Item, expected: Version, taken: set<string>, w: Version)
    requires Restore(item, expected, taken, w).Ok?
    requires StartPublish(r, Restore(item, expected, taken, w).value, expected + 1).Ok?
    ensures var e := item.entry.value;
      var publishing := StartPublish(r, Restore(item, expected, taken, w).value, expected + 1).value;
      var published := CompletePublish(r, publishing, expected + 2, GrantsFor(e.revisions[w].covers, expected + 2));
      && published.Ok?
      && var rows := published.value.entry.value.rows;
        var recorded := RowsOf(r, e.revisions[w], GrantsFor(e.revisions[w].covers, w), w);
        && (forall l | l in recorded :: l in rows && Payload(rows[l]) == Payload(recorded[l]))
        && (rows.Keys == recorded.Keys <==> e.content.translations.Keys <= e.revisions[w].translations.Keys)
  {
    hide CompletePublish, StartPublish, Restore, RowsOf, GrantsFor, Merged, Matches;
    RestoredEntry(item, expected, taken, w);
    var e := item.entry.value;
    var restored := Restore(item, expected, taken, w).value;
    var publishing := StartPublish(r, restored, expected + 1).value;
    StartedEntry(r, restored, expected + 1);
    MergedIs(e.revisions[w], e.content);
    MatchesOwnGrants(e.revisions[w].covers, expected + 2);
    CompletedEntry(r, publishing, expected + 2, GrantsFor(e.revisions[w].covers, expected + 2));
    MergedRows(r, e.revisions[w], e.content, expected + 2, w);
  }

  lemma RestoredEntry(item: Item, expected: Version, taken: set<string>, w: Version)
    requires Restore(item, expected, taken, w).Ok?
    ensures item.entry.Some? && w in item.entry.value.revisions
    ensures var after := Restore(item, expected, taken, w).value.entry;
      && after.Some? && after.value.version == expected + 1
      && after.value.content == Merged(item.entry.value.revisions[w], item.entry.value.content)
  {
    hide Merged;
  }

  lemma StartedEntry(r: Rules, item: Item, expected: Version)
    requires StartPublish(r, item, expected).Ok?
    ensures item.entry.Some?
    ensures var after := StartPublish(r, item, expected).value;
      && after.entry.Some? && after.entry.value.status.Publishing? && after.entry.value.version == expected + 1
      && after.entry.value.content == item.entry.value.content
      && PublishKey(expected + 1) in after.outbox && after.outbox[PublishKey(expected + 1)].status.Waiting?
      && after.outbox[PublishKey(expected + 1)].covers == item.entry.value.content.covers
  {
    hide Publishable;
  }

  lemma CompletedEntry(r: Rules, item: Item, v: Version, assets: map<Usage, Recorded>)
    requires item.entry.Some? && item.entry.value.status.Publishing? && item.entry.value.version == v
    requires PublishKey(v) in item.outbox && item.outbox[PublishKey(v)].status.Waiting? && Matches(item.outbox[PublishKey(v)].covers, assets)
    ensures var after := CompletePublish(r, item, v, assets);
      && after.Ok? && after.value.entry.Some?
      && after.value.entry.value.rows == RowsOf(r, item.entry.value.content, assets, v)
  {
    hide Displaced, Matches, RowsOf;
  }

  lemma MatchesOwnGrants(covers: map<Usage, string>, v: Version)
    ensures Matches(covers, GrantsFor(covers, v))
  {
  }

  lemma MergedIs(snapshot: NewsContent, current: NewsContent)
    ensures Merged(snapshot, current).covers == snapshot.covers
  {
  }

  /** Rows of a revision merged with later locales, against rows of the revision. */
  lemma MergedRows(r: Rules, snapshot: NewsContent, current: NewsContent, v: Version, w: Version)
    ensures var rows := RowsOf(r, Merged(snapshot, current), GrantsFor(snapshot.covers, v), v);
      var recorded := RowsOf(r, snapshot, GrantsFor(snapshot.covers, w), w);
      && (forall l | l in recorded :: l in rows && Payload(rows[l]) == Payload(recorded[l]))
      && (rows.Keys == recorded.Keys <==> current.translations.Keys <= snapshot.translations.Keys)
  {
    var rows := RowsOf(r, Merged(snapshot, current), GrantsFor(snapshot.covers, v), v);
    var recorded := RowsOf(r, snapshot, GrantsFor(snapshot.covers, w), w);
    assert rows.Keys == current.translations.Keys + snapshot.translations.Keys;
    assert recorded.Keys == snapshot.translations.Keys;
    if current.translations.Keys <= snapshot.translations.Keys {
      assert current.translations.Keys + snapshot.translations.Keys == snapshot.translations.Keys;
    }
  }
}
