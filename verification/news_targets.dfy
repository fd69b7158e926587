/** Which asset a revocation of a news cover is for: the one its grant was created for. */
module NewsTargets {
  import opened ContentModel
  import opened News
  import opened NewsInvariants
  import opened NewsGuarantees

  /** The publication the grant belongs to asked for it on this asset, for this usage. */
  predicate IsFor(outbox: Outbox, u: Usage, target: Recorded) {
    && target.grant.usage == u
    && PublishKey(target.grant.version) in outbox
    && u in outbox[PublishKey(target.grant.version)].covers
    && outbox[PublishKey(target.grant.version)].covers[u] == target.asset
  }

  predicate AllFor(outbox: Outbox, targets: map<Usage, Recorded>) {
    forall u | u in targets :: IsFor(outbox, u, targets[u])
  }

  ghost predicate Aims(item: Item) {
    && (item.entry.Some? ==> AllFor(item.outbox, item.entry.value.recorded))
    && (forall key | key in item.outbox && !key.PublishKey? :: AllFor(item.outbox, item.outbox[key].revoking))
  }

  /** Events keep what they are about. */
  predicate Keeps(before: Outbox, after: Outbox) {
    forall key | key in before :: key in after && after[key].covers == before[key].covers && after[key].revoking == before[key].revoking
  }

  lemma AllForStays(before: Outbox, after: Outbox, targets: map<Usage, Recorded>)
    requires Keeps(before, after) && AllFor(before, targets)
    ensures AllFor(after, targets)
  {
  }

  /** To keep the aims it is enough to look after what is new. */
  lemma AimsStay(before: Item, after: Item)
    requires Aims(before) && Keeps(before.outbox, after.outbox)
    requires after.entry.Some? ==>
      || AllFor(after.outbox, after.entry.value.recorded)
      || (before.entry.Some? && after.entry.value.recorded == before.entry.value.recorded)
    requires forall key | key in after.outbox && key !in before.outbox && !key.PublishKey? ::
      || AllFor(after.outbox, after.outbox[key].revoking)
      || AllFor(before.outbox, after.outbox[key].revoking)
    ensures Aims(after)
  {
    hide AllFor, Keeps;
    if before.entry.Some? { AllForStays(before.outbox, after.outbox, before.entry.value.recorded); }
    forall key | key in after.outbox && !key.PublishKey? ensures AllFor(after.outbox, after.outbox[key].revoking) {
      if key in before.outbox { KeptRevoking(before.outbox, after.outbox, key); }
      else if AllFor(before.outbox, after.outbox[key].revoking) { AllForStays(before.outbox, after.outbox, after.outbox[key].revoking); }
    }
  }

  lemma KeptRevoking(before: Outbox, after: Outbox, key: Key)
    requires Keeps(before, after) && key in before && AllFor(before, before[key].revoking)
    ensures key in after && AllFor(after, after[key].revoking)
  {
  }

  // ---------------------------------------------------------------- the transactions

  lemma OperationAims(r: Rules, item: Item, expected: Version, taken: set<string>, op: Op)
    requires Aims(item) && Apply(r, item, expected, taken, op).Ok?
    ensures Aims(Apply(r, item, expected, taken, op).value)
  {
    hide Publishable, Merged, AllFor, Aims, HasPublicState;
    assert item.entry.Some? ==> AllFor(item.outbox, item.entry.value.recorded) by { EntryAims(item); }
    AimsStay(item, Apply(r, item, expected, taken, op).value);
  }

  lemma EntryAims(item: Item)
    requires Aims(item)
    ensures item.entry.Some? ==> AllFor(item.outbox, item.entry.value.recorded)
  {
  }

  lemma MarkingAims(item: Item, key: Key, status: EventStatus, attempts: nat)
    requires Aims(item) && key in item.outbox
    ensures Keeps(item.outbox, Written(item.outbox, key, status, attempts))
    ensures Aims(item.(outbox := Written(item.outbox, key, status, attempts)))
  {
    hide AllFor;
    AimsStay(item, item.(outbox := Written(item.outbox, key, status, attempts)));
  }

  /** Queueing the revocation of something an event or the entry knew already. */
  lemma QueueAims(item: Item, key: Key, target: Recorded)
    requires Aims(item) && IsFor(item.outbox, target.grant.usage, target) && !key.PublishKey?
    ensures Aims(item.(outbox := Queued(item.outbox, key, target)))
    ensures Keeps(item.outbox, Queued(item.outbox, key, target))
  {
    assert AllFor(item.outbox, map[target.grant.usage := target]);
    hide AllFor, IsFor;
    AimsStay(item, item.(outbox := Queued(item.outbox, key, target)));
  }

  lemma DisplacementAims(item: Item, prior: map<Usage, Recorded>, current: map<Usage, Recorded>, u: Usage)
    requires Aims(item) && AllFor(item.outbox, prior)
    ensures var after := Displaced(item.outbox, prior, current, u);
      Aims(item.(outbox := after)) && Keeps(item.outbox, after) && AllFor(after, prior)
  {
    hide Aims, Queued;
    if u in prior {
      QueueAims(item, RevokeKey(prior[u].grant), prior[u]);
      AllForStays(item.outbox, Queued(item.outbox, RevokeKey(prior[u].grant), prior[u]), prior);
    }
  }

  lemma GrantsAreFor(outbox: Outbox, v: Version, done: set<Usage>)
    requires PublishKey(v) in outbox
    ensures AllFor(outbox, GrantsFor(outbox[PublishKey(v)].covers, v))
    ensures AllFor(outbox, Held(outbox[PublishKey(v)].covers, v, done))
  {
  }

  lemma CompletionAims(r: Rules, item: Item, v: Version)
    requires Aims(item) && PublishKey(v) in item.outbox
    ensures var done := CompletePublish(r, item, v, GrantsFor(item.outbox[PublishKey(v)].covers, v));
      done.Ok? ==> Aims(done.value)
  {
    hide Aims, AllFor, Keeps, Displaced, GrantsFor, Matches;
    var assets := GrantsFor(item.outbox[PublishKey(v)].covers, v);
    var done := CompletePublish(r, item, v, assets);
    if done.Ok? && !item.outbox[PublishKey(v)].status.Delivered? {
      var e := item.entry.value;
      EntryAims(item);
      MarkingAims(item, PublishKey(v), Delivered, item.outbox[PublishKey(v)].attempts);
      var outbox := Marked(item.outbox, PublishKey(v), Delivered);
      GrantsAreFor(outbox, v, {});
      AllForStays(item.outbox, outbox, e.recorded);
      LiveAims(item.(outbox := outbox), Live(r, e, assets));
      var live := Item(Some(Live(r, e, assets)), outbox);
      DisplacementAims(live, e.recorded, assets, Detail);
      var once := Displaced(outbox, e.recorded, assets, Detail);
      DisplacementAims(live.(outbox := once), e.recorded, assets, HomePage);
    }
  }

  lemma LiveAims(item: Item, e: Entry)
    requires Aims(item) && AllFor(item.outbox, e.recorded)
    ensures Aims(item.(entry := Some(e)))
  {
  }

  lemma WithdrawalAims(item: Item, v: Version)
    requires Aims(item) && CompleteUnpublish(item, v).Ok?
    ensures Aims(CompleteUnpublish(item, v).value)
  {
    hide Aims, Keeps, AllFor;
    if !item.outbox[UnpublishKey(v)].status.Delivered? {
      MarkingAims(item, UnpublishKey(v), Delivered, item.outbox[UnpublishKey(v)].attempts);
      var e := item.entry.value.(status := Unpublished, recorded := map[], publishedVersion := None);
      NothingIsFor(Marked(item.outbox, UnpublishKey(v), Delivered));
      LiveAims(item.(outbox := Marked(item.outbox, UnpublishKey(v), Delivered)), e);
    }
  }

  lemma NothingIsFor(outbox: Outbox)
    ensures AllFor(outbox, map[])
  {
  }

  lemma FailureAims(item: Item, key: Key)
    requires Aims(item) && key in item.outbox
    ensures Aims(Fail(item, key)) && Keeps(item.outbox, Fail(item, key).outbox)
  {
    hide AllFor;
    AimsStay(item, Fail(item, key));
  }

  lemma CompensationAims(item: Item, v: Version, done: set<Usage>)
    requires Aims(item) && PublishKey(v) in item.outbox
    ensures Aims(FailPublish(item, v, Held(item.outbox[PublishKey(v)].covers, v, done)))
  {
    hide Aims, Keeps, Fail, Held;
    var held := Held(item.outbox[PublishKey(v)].covers, v, done);
    FailureAims(item, PublishKey(v));
    GrantsAreFor(item.outbox, v, done);
    var failed := Fail(item, PublishKey(v));
    AllForStays(item.outbox, failed.outbox, held);
    if Detail in held { QueueAims(failed, CompensateKey(held[Detail].grant), held[Detail]); }
    var once := Compensated(failed.outbox, held, Detail);
    KeepsItself(failed.outbox);
    AllForStays(failed.outbox, once, held);
    if HomePage in held { QueueAims(failed.(outbox := once), CompensateKey(held[HomePage].grant), held[HomePage]); }
  }

  lemma KeepsItself(outbox: Outbox)
    ensures Keeps(outbox, outbox)
  {
  }

  // ---------------------------------------------------------------- every step

  lemma NextAims(r: Rules, max: nat, taken: set<string>, t: Track, step: Step)
    requires Aims(t.item)
    ensures Aims(Next(r, max, taken, t, step).item)
  {
    hide Aims, Apply, Completed, FailPublish, Fail, Written, NextUsage;
    match step {
      case Do(expected, op) => if Apply(r, t.item, expected, taken, op).Ok? { OperationAims(r, t.item, expected, taken, op); }
      case Claim(key) => if key in t.item.outbox { MarkingAims(t.item, key, Processing, t.item.outbox[key].attempts + 1); }
      case Complete(key, fault) => if key in t.item.outbox { EndingAims(r, t.item, key); }
      case Compensate(key, fault) =>
        if key.PublishKey? && key in t.item.outbox && key in t.attempts { CompensationAims(t.item, key.version, t.attempts[key].done); }
      case Settle(key, fault) => if key in t.item.outbox { SettlementAims(t, key, fault); }
      case _ =>
    }
  }

  lemma EndingAims(r: Rules, item: Item, key: Key)
    requires Aims(item) && key in item.outbox
    ensures Completed(r, item, key).Ok? ==> Aims(Completed(r, item, key).value)
  {
    hide Aims, CompletePublish, CompleteUnpublish, GrantsFor;
    match key {
      case PublishKey(v) => CompletionAims(r, item, v);
      case UnpublishKey(v) => if CompleteUnpublish(item, v).Ok? { WithdrawalAims(item, v); }
      case _ => MarkingAims(item, key, Delivered, item.outbox[key].attempts);
    }
  }

  lemma SettlementAims(t: Track, key: Key, fault: Fault)
    requires Aims(t.item) && key in t.item.outbox
    ensures Aims(DoSettle(t, key, fault).item)
  {
    hide Aims, Fail, Written;
    var attempts := t.item.outbox[key].attempts;
    MarkingAims(t.item, key, Waiting, attempts);
    MarkingAims(t.item, key, Waiting, if attempts == 0 then 0 else attempts - 1);
    FailureAims(t.item, key);
  }

  ghost predicate RoomAims(room: Newsroom) {
    forall id | id in room :: Aims(room[id].item)
  }

  lemma AdvanceAims(r: Rules, max: nat, room: Newsroom, turn: Turn)
    requires RoomAims(room)
    ensures RoomAims(Advance(r, max, room, turn))
  {
    match turn {
      case Create(id, content) => assert Aims(NewItem(content));
      case On(id, step) =>
        hide Aims, Next;
        if id in room { NextAims(r, max, SlugsOfOthers(room, id), room[id], step); }
    }
  }

  lemma {:induction false} RunAims(r: Rules, max: nat, room: Newsroom, turns: seq<Turn>)
    requires RoomAims(room)
    ensures RoomAims(Run(r, max, room, turns))
    decreases turns
  {
    hide RoomAims, Advance;
    if turns != [] {
      AdvanceAims(r, max, room, turns[0]);
      RunAims(r, max, Advance(r, max, room, turns[0]), turns[1..]);
    }
  }

  /** In every reachable room whatever an event is to revoke, and whatever an item has recorded,
      is named with the asset that the publication the grant was created for asked it for. */
  lemma RevocationsNameTheirAssets(r: Rules, max: nat, room: Newsroom, id: Id, key: Key, u: Usage)
    requires Reachable(r, max, room) && id in room
    ensures key in room[id].item.outbox && !key.PublishKey? && u in room[id].item.outbox[key].revoking ==>
      IsFor(room[id].item.outbox, u, room[id].item.outbox[key].revoking[u])
    ensures room[id].item.entry.Some? && u in room[id].item.entry.value.recorded ==>
      IsFor(room[id].item.outbox, u, room[id].item.entry.value.recorded[u])
  {
    var turns :| room == Run(r, max, map[], turns);
    RunAims(r, max, map[], turns);
    assert Aims(room[id].item);
  }
}
