/** The transactions on news items in their imperative form: statement by statement on a private
    copy of the item's rows, committed at the end, each proved equal to the function of the item
    in `news.dfy`. */
module NewsRepository {
  import opened ContentModel
  import opened News
  import opened NewsInvariants

  /** The rows of the locales in `done`. */
  function RowsAt(r: Rules, content: NewsContent, assets: map<Usage, Recorded>, v: Version, done: set<Locale>): map<Locale, NewsRow> {
    map l | l in content.translations && l in done :: RowsOf(r, content, assets, v)[l]
  }

  lemma AllRows(r: Rules, content: NewsContent, assets: map<Usage, Recorded>, v: Version)
    ensures RowsAt(r, content, assets, v, {}) == map[]
    ensures RowsAt(r, content, assets, v, content.translations.Keys) == RowsOf(r, content, assets, v)
  {
  }

  class Repository {
    const rules: Rules
    var items: map<Id, Item>

    /** What the worker and the grant service are at with each item. */
    ghost var tracks: Newsroom

    /** The item and slug invariants hold of the rows. */
    ghost predicate Valid()
      reads this
    {
      && tracks.Keys == items.Keys
      && (forall id | id in items :: tracks[id].item == items[id])
      && RoomInv(rules, tracks)
    }

    constructor (rules: Rules)
      ensures this.rules == rules && items == map[] && Valid()
    {
      this.rules := rules;
      items, tracks := map[], map[];
    }

    lemma TakenAlike(id: Id)
      requires Valid()
      ensures Taken(id) == SlugsOfOthers(tracks, id)
    {
      forall slug | slug in Taken(id) ensures slug in SlugsOfOthers(tracks, id) {
        var other :| other in items && other != id && items[other].entry.Some? && items[other].entry.value.content.slug == slug;
        assert tracks[other].item == items[other];
      }
      forall slug | slug in SlugsOfOthers(tracks, id) ensures slug in Taken(id) {
        var other :| other in tracks && other != id && tracks[other].item.entry.Some? && tracks[other].item.entry.value.content.slug == slug;
        assert items[other] == tracks[other].item;
      }
    }

    /** An administrator's transaction, as a turn of the step protocol. */
    ghost method Follow(id: Id, expected: Version, op: Op, before: map<Id, Item>, taken: set<string>)
      requires RoomInv(rules, tracks) && tracks.Keys == before.Keys
      requires forall other | other in before :: tracks[other].item == before[other]
      requires taken == SlugsOfOthers(tracks, id)
      requires id in before && Apply(rules, before[id], expected, taken, op).Ok?
      requires items == before[id := Apply(rules, before[id], expected, taken, op).value]
      modifies this`tracks
      ensures Valid()
    {
      hide RoomInv, SlugsOfOthers, Apply;
      var turn := On(id, Do(expected, op));
      AdvanceKeeps(rules, 0, tracks, turn);
      tracks := Advance(rules, 0, tracks, turn);
    }

    function Load(id: Id): Item
      reads this
    {
      if id in items then items[id] else Item(None, map[])
    }

    /** The unique index on slugs, seen from one item. */
    function Taken(id: Id): set<string>
      reads this
    {
      set other | other in items && other != id && items[other].entry.Some? :: items[other].entry.value.content.slug
    }

    /** The call did what the function says, to this item and no other. */
    ghost predicate Performed(before: map<Id, Item>, id: Id, outcome: Result<Item>, result: Result<()>)
      reads this
    {
      match outcome
      case Ok(item) => result.Ok? && items == before[id := item]
      case Err(error) => result == Err(error) && items == before
    }

    /** The worker's attempt on the event is where the step asks it to be. */
    ghost predicate AtWork(id: Id, key: Key, phase: Phase, done: set<Usage>)
      reads this
    {
      Valid() && id in tracks && At(tracks[id], key, phase) && tracks[id].attempts[key].done == done
    }

    /** The attempt holds the grants of exactly these assets, and completes the publication. */
    ghost predicate ReadyToPublish(id: Id, v: Version, assets: map<Usage, Recorded>)
      reads this
    {
      AtWork(id, PublishKey(v), Claimed, assets.Keys) && assets == GrantsFor(tracks[id].item.outbox[PublishKey(v)].covers, v)
    }

    /** The attempt revoked every grant, and completes the withdrawal. */
    ghost predicate ReadyToWithdraw(id: Id, v: Version)
      reads this
    {
      && UnpublishKey(v) in Load(id).outbox
      && AtWork(id, UnpublishKey(v), Claimed, Load(id).outbox[UnpublishKey(v)].revoking.Keys)
    }

    /** The attempt holds the grants of exactly these assets, and gives the publication up. */
    ghost predicate ReadyToCompensate(id: Id, v: Version, assets: map<Usage, Recorded>)
      reads this
    {
      && AtWork(id, PublishKey(v), Compensating, assets.Keys)
      && assets == Held(tracks[id].item.outbox[PublishKey(v)].covers, v, assets.Keys)
    }

    /** A worker's transaction, as a turn of the step protocol. */
    ghost method FollowWorker(id: Id, step: Step, before: map<Id, Item>)
      requires RoomInv(rules, tracks) && tracks.Keys == before.Keys && id in before
      requires forall other | other in before :: tracks[other].item == before[other]
      requires items == before[id := Next(rules, 0, SlugsOfOthers(tracks, id), tracks[id], step).item]
      modifies this`tracks
      ensures Valid()
    {
      hide RoomInv, SlugsOfOthers, Next;
      var turn := On(id, step);
      AdvanceKeeps(rules, 0, tracks, turn);
      tracks := Advance(rules, 0, tracks, turn);
    }

    method LockContentVersion(id: Id, expected: Version) returns (locked: Result<Entry>)
      ensures locked == Lock(Load(id), expected)
      ensures locked.Ok? ==> id in items
    {
      var item := Load(id);
      if item.entry.None? { return Err(NotFound); }
      var entry := item.entry.value;
      if entry.version != expected { return Err(Precondition); }
      if entry.status.Publishing? || entry.status.Unpublishing? { return Err(Conflict); }
      return Ok(entry);
    }

    method InsertRevision(entry: Entry) returns (result: Result<Entry>)
      ensures result == if entry.version in entry.revisions then Err(Duplicate)
                        else Ok(entry.(revisions := entry.revisions[entry.version := entry.content]))
    {
      if entry.version in entry.revisions { return Err(Duplicate); }
      return Ok(entry.(revisions := entry.revisions[entry.version := entry.content]));
    }

    /** Ids are fresh. */
    method CreateContent(id: Id, content: NewsContent) returns (result: Result<()>)
      requires id !in items
      requires Valid()
      modifies this
      ensures Valid()
      ensures Performed(old(items), id, if content.slug in old(Taken(id)) then Err(Conflict) else Ok(NewItem(content)), result)
    {
      hide RoomInv, SlugsOfOthers;
      if content.slug in Taken(id) { return Err(Conflict); }
      var entry := Entry(1, Draft, content, map[], map[], map[], None);
      entry := entry.(revisions := map[entry.version := content]);
      ghost var turn := Create(id, content);
      TakenAlike(id);
      AdvanceKeeps(rules, 0, tracks, turn);
      tracks := Advance(rules, 0, tracks, turn);
      items := items[id := Item(Some(entry), map[])];
      return Ok(());
    }

    method UpdateContent(id: Id, expected: Version, content: NewsContent) returns (result: Result<()>)
      requires Valid()
      modifies this
      ensures Valid()
      ensures Performed(old(items), id, Update(old(Load(id)), expected, old(Taken(id)), content), result)
    {
      hide RoomInv, SlugsOfOthers;
      var entry :- LockContentVersion(id, expected);
      if content.slug in Taken(id) { return Err(Conflict); }
      entry := entry.(content := content);
      entry := entry.(status := Draft, version := entry.version + 1);
      entry :- InsertRevision(entry);
      TakenAlike(id);
      ghost var slugs := Taken(id);
      items := items[id := items[id].(entry := Some(entry))];
      Follow(id, expected, OpUpdate(content), old(items), slugs);
      return Ok(());
    }

    method RestoreContent(id: Id, expected: Version, revision: Version) returns (result: Result<()>)
      requires Valid()
      modifies this
      ensures Valid()
      ensures Performed(old(items), id, Restore(old(Load(id)), expected, old(Taken(id)), revision), result)
    {
      hide RoomInv, SlugsOfOthers;
      var current := Load(id);
      if current.entry.None? || revision !in current.entry.value.revisions { return Err(NotFound); }
      var snapshot := current.entry.value.revisions[revision];
      var translations := snapshot.translations;
      var left := current.entry.value.content.translations.Keys;
      ghost var kept := current.entry.value.content.translations;
      while left != {}
        invariant left <= kept.Keys
        invariant translations == (map l | l in kept && l !in left :: kept[l]) + snapshot.translations
        decreases left
      {
        var l :| l in left;
        if l !in snapshot.translations { translations := translations[l := current.entry.value.content.translations[l]]; }
        left := left - {l};
      }
      assert (map l | l in kept && l !in left :: kept[l]) == kept;
      result := UpdateContent(id, expected, snapshot.(translations := translations));
    }

    /** PublishContent: the checks of the service, then the start of the publication. */
    method StartNewsPublish(id: Id, expected: Version) returns (result: Result<()>)
      requires Valid()
      modifies this
      ensures Valid()
      ensures Performed(old(items), id, StartPublish(rules, old(Load(id)), expected), result)
    {
      hide RoomInv, SlugsOfOthers;
      var current := Load(id);
      if current.entry.None? { return Err(NotFound); }
      if current.entry.value.version != expected { return Err(Precondition); }
      if !Publishable(rules, current.entry.value.content) { return Err(NotPublishable); }
      var entry :- LockContentVersion(id, expected);
      var next := expected + 1;
      entry := entry.(status := Publishing, version := next);
      var outbox := items[id].outbox;
      var taken := PublishKey(next) in outbox;
      outbox := outbox[PublishKey(next) := Event(Waiting, 0, entry.content.covers, map[])];
      entry :- InsertRevision(entry);
      if taken { return Err(Duplicate); }
      TakenAlike(id);
      ghost var slugs := Taken(id);
      items := items[id := Item(Some(entry), outbox)];
      Follow(id, expected, OpStartPublish, old(items), slugs);
      return Ok(());
    }

    method StartNewsUnpublish(id: Id, expected: Version) returns (result: Result<()>)
      requires Valid()
      modifies this
      ensures Valid()
      ensures Performed(old(items), id, StartUnpublish(old(Load(id)), expected), result)
    {
      hide RoomInv, SlugsOfOthers;
      var entry :- LockContentVersion(id, expected);
      if entry.rows == map[] { return Err(NotPublishable); }
      var next := expected + 1;
      entry := entry.(status := Unpublishing, version := next);
      entry := entry.(rows := map[]);
      var outbox := items[id].outbox;
      if UnpublishKey(next) in outbox { return Err(Duplicate); }
      outbox := outbox[UnpublishKey(next) := Event(Waiting, 0, map[], entry.recorded)];
      TakenAlike(id);
      ghost var slugs := Taken(id);
      items := items[id := Item(Some(entry), outbox)];
      Follow(id, expected, OpStartUnpublish, old(items), slugs);
      return Ok(());
    }

    method DeleteContent(id: Id, expected: Version) returns (result: Result<()>)
      requires Valid()
      modifies this
      ensures Valid()
      ensures Performed(old(items), id, Delete(old(Load(id)), expected), result)
    {
      hide RoomInv, SlugsOfOthers;
      var item := Load(id);
      if item.entry.None? { return Err(NotFound); }
      var entry := item.entry.value;
      if entry.version != expected { return Err(Precondition); }
      if entry.status.Publishing? || entry.status.Unpublishing? { return Err(Conflict); }
      var hasPublicState := entry.rows != map[] || entry.recorded != map[];
      if entry.status.Published? || entry.status.UnpublishFailed? { return Err(Conflict); }
      if hasPublicState { return Err(Conflict); }
      TakenAlike(id);
      ghost var slugs := Taken(id);
      items := items[id := item.(entry := None)];
      Follow(id, expected, OpDelete, old(items), slugs);
      return Ok(());
    }

    method EnqueueGrantRevoke(outbox: Outbox, key: Key, target: Recorded) returns (after: Outbox)
      ensures after == Queued(outbox, key, target)
    {
      if key in outbox { return outbox; }
      return outbox[key := Event(Waiting, 0, map[], map[target.grant.usage := target])];
    }

    /** The rows of all locales, one after the other. */
    method RenderRows(content: NewsContent, assets: map<Usage, Recorded>, v: Version) returns (rows: map<Locale, NewsRow>)
      ensures rows == RowsOf(rules, content, assets, v)
    {
      rows := map[];
      var done: set<Locale> := {};
      AllRows(rules, content, assets, v);
      while done != content.translations.Keys
        invariant done <= content.translations.Keys
        invariant rows == RowsAt(rules, content, assets, v, done)
        decreases content.translations.Keys - done
      {
        var l := Following(content.translations.Keys, done);
        var image := ImageOf(rules, content.covers, assets, Detail);
        var home := ImageOf(rules, content.covers, assets, HomePage);
        if home == "" { home := image; }
        rows := rows[l := NewsRow(v, content.slug, content.fields, content.translations[l], image, home)];
        done := done + {l};
      }
    }

    /** Revocations for the grants a publication replaces. */
    method RevokeDisplaced(outbox: Outbox, prior: map<Usage, Recorded>, assets: map<Usage, Recorded>) returns (after: Outbox)
      ensures after == Displaced(Displaced(outbox, prior, assets, Detail), prior, assets, HomePage)
    {
      after := outbox;
      var usages := [Detail, HomePage];
      for i := 0 to 2
        invariant i == 0 ==> after == outbox
        invariant i == 1 ==> after == Displaced(outbox, prior, assets, Detail)
        invariant i == 2 ==> after == Displaced(Displaced(outbox, prior, assets, Detail), prior, assets, HomePage)
      {
        var u := usages[i];
        if u in prior && (u !in assets || assets[u].grant != prior[u].grant) {
          after := EnqueueGrantRevoke(after, RevokeKey(prior[u].grant), prior[u]);
        }
      }
    }

    method CompleteContentPublish(id: Id, v: Version, assets: map<Usage, Recorded>) returns (result: Result<()>)
      modifies this
      ensures Performed(old(items), id, CompletePublish(rules, old(Load(id)), v, assets), result)
      ensures old(ReadyToPublish(id, v, assets)) && result.Ok? ==> Valid()
    {
      hide RoomInv, SlugsOfOthers, RowsOf, Displaced;
      var item := Load(id);
      var key := PublishKey(v);
      if key !in item.outbox { return Err(NotFound); }
      if item.outbox[key].status.Delivered? { return Ok(()); }
      if item.entry.None? { return Err(NotFound); }
      var entry := item.entry.value;
      if !entry.status.Publishing? || entry.version != v { return Err(Stale); }
      var prior := entry.recorded;
      if item.outbox[key].covers.Keys != assets.Keys || exists u | u in assets :: assets[u].asset != item.outbox[key].covers[u] {
        return Err(Invalid);
      }
      var rows := RenderRows(entry.content, assets, v);
      entry := entry.(rows := rows);
      entry := entry.(status := Published);
      entry := entry.(recorded := assets, publishedVersion := Some(v));
      var outbox := RevokeDisplaced(Marked(item.outbox, key, Delivered), prior, assets);
      items := items[id := Item(Some(entry), outbox)];
      if old(ReadyToPublish(id, v, assets)) {
        FollowWorker(id, Complete(key, Fine), old(items));
      }
      return Ok(());
    }

    method CompleteContentUnpublish(id: Id, v: Version) returns (result: Result<()>)
      modifies this
      ensures Performed(old(items), id, CompleteUnpublish(old(Load(id)), v), result)
      ensures old(ReadyToWithdraw(id, v)) && result.Ok? ==> Valid()
    {
      hide RoomInv, SlugsOfOthers;
      var item := Load(id);
      var key := UnpublishKey(v);
      if key !in item.outbox { return Err(NotFound); }
      if item.outbox[key].status.Delivered? { return Ok(()); }
      if item.entry.None? { return Err(Stale); }
      var entry := item.entry.value;
      if entry.version != v || !entry.status.Unpublishing? { return Err(Stale); }
      entry := entry.(status := Unpublished);
      entry := entry.(recorded := map[], publishedVersion := None);
      items := items[id := Item(Some(entry), Marked(item.outbox, key, Delivered))];
      if old(ReadyToWithdraw(id, v)) { FollowWorker(id, Complete(key, Fine), old(items)); }
      return Ok(());
    }

    /** failEvent on the rows of one item. */
    method FailEvent(item: Item, key: Key) returns (after: Item)
      requires key in item.outbox
      ensures after == Fail(item, key)
    {
      after := item.(outbox := Marked(item.outbox, key, FailedEvent));
      if item.entry.None? || key.RevokeKey? || key.CompensateKey? { return; }
      var entry := item.entry.value;
      var expectedStatus, nextStatus := Publishing, Draft;
      if key.UnpublishKey? { expectedStatus, nextStatus := Unpublishing, UnpublishFailed; }
      if entry.version == key.version && entry.status == expectedStatus {
        after := after.(entry := Some(entry.(status := nextStatus)));
      }
    }

    /** Revocations for the grants an attempt collected. */
    method RevokeCollected(outbox: Outbox, assets: map<Usage, Recorded>) returns (after: Outbox)
      ensures after == Compensated(Compensated(outbox, assets, Detail), assets, HomePage)
    {
      after := outbox;
      var usages := [Detail, HomePage];
      for i := 0 to 2
        invariant i == 0 ==> after == outbox
        invariant i == 1 ==> after == Compensated(outbox, assets, Detail)
        invariant i == 2 ==> after == Compensated(Compensated(outbox, assets, Detail), assets, HomePage)
      {
        var u := usages[i];
        if u in assets { after := EnqueueGrantRevoke(after, CompensateKey(assets[u].grant), assets[u]); }
      }
    }

    method FailContentPublish(id: Id, v: Version, assets: map<Usage, Recorded>)
      requires id in items && PublishKey(v) in items[id].outbox
      modifies this
      ensures items == old(items)[id := FailPublish(old(items)[id], v, assets)]
      ensures old(ReadyToCompensate(id, v, assets)) ==> Valid()
    {
      hide RoomInv, SlugsOfOthers, Compensated;
      var item := FailEvent(items[id], PublishKey(v));
      var outbox := RevokeCollected(item.outbox, assets);
      items := items[id := item.(outbox := outbox)];
      if old(ReadyToCompensate(id, v, assets)) {
        FollowWorker(id, Compensate(PublishKey(v), Fine), old(items));
      }
    }
  }
}
