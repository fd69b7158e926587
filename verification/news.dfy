/** News items: each is published and withdrawn on its own, with up to two cover assets that
    need a public grant each. The transactions on one item as functions from its rows to new
    rows or an error, and the worker's steps on the item's outbox events.

    An item keeps its entry, its public rows and the outbox rows of its aggregate together; the
    outbox rows outlive the entry. The one thing items share is that their slugs are unique. */
module News {
  import opened ContentModel

  /** Where a cover is shown: on the article, or on the home page. */
  datatype Usage = Detail | HomePage

  /** What the model leaves open: the publishing rules for content, and asset URLs. */
  datatype Rules = Rules(publishable: NewsContent -> bool, publicUrl: string -> string)

  /** Columns, the cover assets that are set, and translations of an item. */
  datatype NewsContent = NewsContent(
    slug: string,
    fields: string,
    covers: map<Usage, string>,
    translations: map<Locale, string>)

  datatype NewsRow = NewsRow(version: Version, slug: string, fields: string, text: string, image: string, homeImage: string)

  /** A grant is identified with the idempotency key it was created under, which names the
      item, the usage and the version. */
  datatype Grant = Grant(usage: Usage, version: Version)

  datatype Recorded = Recorded(asset: string, grant: Grant)

  datatype Entry = Entry(
    version: Version,
    status: Status,
    content: NewsContent,
    revisions: map<Version, NewsContent>,
    rows: map<Locale, NewsRow>,
    recorded: map<Usage, Recorded>,
    publishedVersion: Option<Version>)

  /** Idempotency keys of the item's outbox rows. */
  datatype Key =
    | PublishKey(version: Version)
    | UnpublishKey(version: Version)
    | RevokeKey(grant: Grant)
    | CompensateKey(grant: Grant)

  /** `covers` are the assets to publish, `revoking` the grants to revoke. */
  datatype Event = Event(status: EventStatus, attempts: nat, covers: map<Usage, string>, revoking: map<Usage, Recorded>)

  type Outbox = map<Key, Event>

  datatype Item = Item(entry: Option<Entry>, outbox: Outbox)

  // ---------------------------------------------------------------- rendering

  /** publicContent: a published cover is shown under its public URL. */
  function ImageOf(r: Rules, covers: map<Usage, string>, assets: map<Usage, Recorded>, u: Usage): string {
    if u in assets && r.publicUrl(assets[u].asset) != "" then r.publicUrl(assets[u].asset) + "/large"
    else if u in covers then "/assets/" + covers[u] + "/large"
    else ""
  }

  function RowsOf(r: Rules, content: NewsContent, assets: map<Usage, Recorded>, v: Version): map<Locale, NewsRow> {
    var image := ImageOf(r, content.covers, assets, Detail);
    var home := ImageOf(r, content.covers, assets, HomePage);
    map l | l in content.translations ::
      NewsRow(v, content.slug, content.fields, content.translations[l], image, if home != "" then home else image)
  }

  // ---------------------------------------------------------------- administrators

  predicate Publishable(r: Rules, content: NewsContent) {
    r.publishable(content) && content.translations != map[]
  }

  /** lockContentVersion */
  function Lock(item: Item, expected: Version): Result<Entry> {
    if item.entry.None? then Err(NotFound)
    else if item.entry.value.version != expected then Err(Precondition)
    else if Busy(item.entry.value.status) then Err(Conflict)
    else Ok(item.entry.value)
  }

  function NewItem(content: NewsContent): Item {
    Item(Some(Entry(1, Draft, content, map[1 := content], map[], map[], None)), map[])
  }

  /** The entry at its next version, with a revision of it. */
  function Revised(e: Entry, status: Status, content: NewsContent): Result<Entry> {
    var next := e.version + 1;
    if next in e.revisions then Err(Duplicate)
    else Ok(e.(version := next, status := status, content := content, revisions := e.revisions[next := content]))
  }

  /** `taken` are the slugs of the other items. */
  function Update(item: Item, expected: Version, taken: set<string>, content: NewsContent): Result<Item> {
    var e :- Lock(item, expected);
    if content.slug in taken then Err(Conflict)
    else
      var next :- Revised(e, Draft, content);
      Ok(item.(entry := Some(next)))
  }

  /** preserveMissingLocales: locales added since the revision stay. */
  function Merged(snapshot: NewsContent, current: NewsContent): NewsContent {
    snapshot.(translations := current.translations + snapshot.translations)
  }

  function Restore(item: Item, expected: Version, taken: set<string>, revision: Version): Result<Item> {
    if item.entry.None? || revision !in item.entry.value.revisions then Err(NotFound)
    else Update(item, expected, taken, Merged(item.entry.value.revisions[revision], item.entry.value.content))
  }

  function StartPublish(r: Rules, item: Item, expected: Version): Result<Item> {
    if item.entry.None? then Err(NotFound)
    else if item.entry.value.version != expected then Err(Precondition)
    else if !Publishable(r, item.entry.value.content) then Err(NotPublishable)
    else
      var e :- Lock(item, expected);
      var next :- Revised(e, Publishing, e.content);
      var key := PublishKey(next.version);
      if key in item.outbox then Err(Duplicate)
      else Ok(Item(Some(next), item.outbox[key := Event(Waiting, 0, e.content.covers, map[])]))
  }

  /** The public rows go at once; the grants are left to the worker. */
  function StartUnpublish(item: Item, expected: Version): Result<Item> {
    var e :- Lock(item, expected);
    if e.rows == map[] then Err(NotPublishable)
    else
      var key := UnpublishKey(e.version + 1);
      if key in item.outbox then Err(Duplicate)
      else Ok(Item(Some(e.(version := e.version + 1, status := Unpublishing, rows := map[])),
                   item.outbox[key := Event(Waiting, 0, map[], e.recorded)]))
  }

  /** hasPublicContentState */
  predicate HasPublicState(e: Entry) {
    e.rows != map[] || e.recorded != map[]
  }

  function Delete(item: Item, expected: Version): Result<Item> {
    var e :- Lock(item, expected);
    if e.status.Published? || e.status.UnpublishFailed? || HasPublicState(e) then Err(Conflict)
    else Ok(item.(entry := None))
  }

  datatype Op =
    | OpUpdate(content: NewsContent)
    | OpRestore(revision: Version)
    | OpStartPublish
    | OpStartUnpublish
    | OpDelete

  function Apply(r: Rules, item: Item, expected: Version, taken: set<string>, op: Op): Result<Item> {
    match op
    case OpUpdate(content) => Update(item, expected, taken, content)
    case OpRestore(revision) => Restore(item, expected, taken, revision)
    case OpStartPublish => StartPublish(r, item, expected)
    case OpStartUnpublish => StartUnpublish(item, expected)
    case OpDelete => Delete(item, expected)
  }

  // ---------------------------------------------------------------- the worker's transactions

  function Written(outbox: Outbox, key: Key, status: EventStatus, attempts: nat): Outbox
    requires key in outbox
  {
    outbox[key := outbox[key].(status := status, attempts := attempts)]
  }

  function Marked(outbox: Outbox, key: Key, status: EventStatus): Outbox
    requires key in outbox
  {
    Written(outbox, key, status, outbox[key].attempts)
  }

  /** ON CONFLICT DO NOTHING */
  function Queued(outbox: Outbox, key: Key, target: Recorded): Outbox {
    if key in outbox then outbox else outbox[key := Event(Waiting, 0, map[], map[target.grant.usage := target])]
  }

  /** enqueueGrantRevoke for a recorded grant that a publication replaces. */
  function Displaced(outbox: Outbox, prior: map<Usage, Recorded>, current: map<Usage, Recorded>, u: Usage): Outbox {
    if u in prior && !(u in current && current[u].grant == prior[u].grant)
    then Queued(outbox, RevokeKey(prior[u].grant), prior[u])
    else outbox
  }

  predicate Matches(covers: map<Usage, string>, assets: map<Usage, Recorded>) {
    covers.Keys == assets.Keys && forall u | u in covers :: assets[u].asset == covers[u]
  }

  function Live(r: Rules, e: Entry, assets: map<Usage, Recorded>): Entry {
    e.(status := Published,
       rows := RowsOf(r, e.content, assets, e.version),
       recorded := assets,
       publishedVersion := Some(e.version))
  }

  /** CompleteContentPublish */
  function CompletePublish(r: Rules, item: Item, v: Version, assets: map<Usage, Recorded>): Result<Item> {
    var key := PublishKey(v);
    if key !in item.outbox then Err(NotFound)
    else if item.outbox[key].status.Delivered? then Ok(item)
    else if item.entry.None? then Err(NotFound)
    else
      var e := item.entry.value;
      if !e.status.Publishing? || e.version != v then Err(Stale)
      else if !Matches(item.outbox[key].covers, assets) then Err(Invalid)
      else
        var outbox := Marked(item.outbox, key, Delivered);
        Ok(Item(Some(Live(r, e, assets)),
                Displaced(Displaced(outbox, e.recorded, assets, Detail), e.recorded, assets, HomePage)))
  }

  /** CompleteContentUnpublish */
  function CompleteUnpublish(item: Item, v: Version): Result<Item> {
    var key := UnpublishKey(v);
    if key !in item.outbox then Err(NotFound)
    else if item.outbox[key].status.Delivered? then Ok(item)
    else if item.entry.None? || item.entry.value.version != v || !item.entry.value.status.Unpublishing? then Err(Stale)
    else Ok(Item(Some(item.entry.value.(status := Unpublished, recorded := map[], publishedVersion := None)),
                 Marked(item.outbox, key, Delivered)))
  }

  /** failEvent: the entry falls back only if it is still at the event's version and state. */
  function Fallen(e: Entry, key: Key): Entry {
    match key
    case PublishKey(v) => if e.version == v && e.status.Publishing? then e.(status := Draft) else e
    case UnpublishKey(v) => if e.version == v && e.status.Unpublishing? then e.(status := UnpublishFailed) else e
    case _ => e
  }

  function Fail(item: Item, key: Key): Item
    requires key in item.outbox
  {
    Item(if item.entry.Some? then Some(Fallen(item.entry.value, key)) else None, Marked(item.outbox, key, FailedEvent))
  }

  function Compensated(outbox: Outbox, assets: map<Usage, Recorded>, u: Usage): Outbox {
    if u in assets then Queued(outbox, CompensateKey(assets[u].grant), assets[u]) else outbox
  }

  /** FailContentPublish */
  function FailPublish(item: Item, v: Version, assets: map<Usage, Recorded>): Item
    requires PublishKey(v) in item.outbox
  {
    var failed := Fail(item, PublishKey(v));
    failed.(outbox := Compensated(Compensated(failed.outbox, assets, Detail), assets, HomePage))
  }

  // ---------------------------------------------------------------- the worker's steps

  datatype Phase = Claimed | Confirming | Compensating | Settling(verdict: Verdict)

  /** An attempt under way; `done` are the usages whose grant it obtained, or revoked. */
  datatype Attempt = Attempt(phase: Phase, done: set<Usage>)

  /** An item, the remote grants ever created and revoked for it, the attempts under way, and
      the grants of publications that failed in an attempt not holding them (a history variable). */
  datatype Track = Track(
    item: Item,
    granted: set<Grant>,
    revoked: set<Grant>,
    attempts: map<Key, Attempt>,
    dropped: set<Grant>)

  datatype Step =
    | Do(expected: Version, op: Op)
    | Claim(key: Key)
    | GetAsset(key: Key, reply: AssetReply)
    | CreateGrant(key: Key, fault: Fault)
    | RevokeNext(key: Key, fault: Fault)
    | Complete(key: Key, fault: Fault)
    | Confirm(key: Key, answered: bool)
    | Compensate(key: Key, fault: Fault)
    | Settle(key: Key, fault: Fault)
    | Crash(key: Key)

  predicate LiveEvent(event: Event) {
    event.status.Waiting? || event.status.Processing?
  }

  /** The usages an event is about. */
  function Wanted(key: Key, event: Event): set<Usage> {
    if key.PublishKey? then event.covers.Keys else event.revoking.Keys
  }

  /** The order in which the loops go through the usages. */
  function NextUsage(wanted: set<Usage>, done: set<Usage>): (u: Usage)
    requires done < wanted
    ensures u in wanted && u !in done
  {
    assert exists u :: u in wanted && u !in done && (u.Detail? || u.HomePage?) by { assert !(wanted <= done); }
    if Detail in wanted && Detail !in done then Detail else HomePage
  }

  function GrantsFor(covers: map<Usage, string>, v: Version): map<Usage, Recorded> {
    map u | u in covers :: Recorded(covers[u], Grant(u, v))
  }

  /** The assets an attempt holds grants for. */
  function Held(covers: map<Usage, string>, v: Version, done: set<Usage>): map<Usage, Recorded> {
    map u | u in covers && u in done :: Recorded(covers[u], Grant(u, v))
  }

  function GrantSet(usages: set<Usage>, v: Version): set<Grant> {
    set u | u in usages :: Grant(u, v)
  }

  predicate At(t: Track, key: Key, phase: Phase) {
    key in t.attempts && t.attempts[key].phase == phase && key in t.item.outbox
  }

  function Move(t: Track, key: Key, phase: Phase): Track
    requires key in t.attempts
  {
    t.(attempts := t.attempts[key := t.attempts[key].(phase := phase)])
  }

  function End(t: Track, key: Key): Track {
    t.(attempts := t.attempts - {key})
  }

  function Ordinary(max: nat, item: Item, key: Key): Verdict
    requires key in item.outbox
  {
    if item.outbox[key].attempts >= max then ToFail else ToRetry
  }

  function DoClaim(t: Track, key: Key): Track {
    if key in t.item.outbox && key !in t.attempts && LiveEvent(t.item.outbox[key]) then
      t.(item := t.item.(outbox := Written(t.item.outbox, key, Processing, t.item.outbox[key].attempts + 1)),
         attempts := t.attempts[key := Attempt(Claimed, {})])
    else t
  }

  /** The first loop of publishNews: every asset is looked at before any grant is created. */
  function DoGetAsset(max: nat, t: Track, key: Key, reply: AssetReply): Track {
    if !At(t, key, Claimed) || !key.PublishKey? || t.attempts[key].done != {} then t
    else if t.item.outbox[key].covers == map[] then t
    else match reply
      case Ready => t
      case Transient => Move(t, key, Settling(Ordinary(max, t.item, key)))
      case Terminal => Move(t, key, Settling(ToFail))
      case NotReady(overdue) => Move(t, key, Settling(if overdue then ToFail else ToDefer))
  }

  /** handleContentPublishFailure for an error that is not ErrStalePublication. */
  function AfterError(max: nat, t: Track, key: Key): Track
    requires key in t.attempts && key in t.item.outbox
  {
    if t.item.outbox[key].attempts < max then Move(t, key, Settling(ToRetry)) else Move(t, key, Confirming)
  }

  /** One round of the second loop. A failed call goes straight to the failure handling, with
      the grants obtained so far. */
  function DoCreateGrant(max: nat, t: Track, key: Key, fault: Fault): Track {
    if !At(t, key, Claimed) || !key.PublishKey? || !(t.attempts[key].done < Wanted(key, t.item.outbox[key])) then t
    else
      var u := NextUsage(Wanted(key, t.item.outbox[key]), t.attempts[key].done);
      var created := if fault.LostBefore? then t else t.(granted := t.granted + {Grant(u, key.version)});
      if fault.Fine? then created.(attempts := t.attempts[key := Attempt(Claimed, t.attempts[key].done + {u})])
      else AfterError(max, created, key)
  }

  /** unpublishNews and revokeGrant: one revocation. A failure is a compensation error, which is
      retried however often it happened; a grant that is already gone counts as revoked. */
  function DoRevokeNext(t: Track, key: Key, fault: Fault): Track {
    if !At(t, key, Claimed) || key.PublishKey? || !(t.attempts[key].done < Wanted(key, t.item.outbox[key])) then t
    else
      var u := NextUsage(Wanted(key, t.item.outbox[key]), t.attempts[key].done);
      var revoked := if fault.LostBefore? then t else t.(revoked := t.revoked + {t.item.outbox[key].revoking[u].grant});
      if fault.Fine? then revoked.(attempts := t.attempts[key := Attempt(Claimed, t.attempts[key].done + {u})])
      else Move(revoked, key, Settling(ToRetry))
  }

  /** The transaction that ends the handling of an event. */
  function Completed(r: Rules, item: Item, key: Key): Result<Item>
    requires key in item.outbox
  {
    match key
    case PublishKey(v) => CompletePublish(r, item, v, GrantsFor(item.outbox[key].covers, v))
    case UnpublishKey(v) => CompleteUnpublish(item, v)
    case _ => Ok(item.(outbox := Marked(item.outbox, key, Delivered)))
  }

  function DoComplete(r: Rules, max: nat, t: Track, key: Key, fault: Fault): Track {
    if !At(t, key, Claimed) || t.attempts[key].done != Wanted(key, t.item.outbox[key]) then t
    else
      var committed := if fault.LostBefore? then Err(Conflict) else Completed(r, t.item, key);
      var after := if committed.Ok? then t.(item := committed.value) else t;
      if committed.Ok? && fault.Fine? then End(after, key)
      else if !key.PublishKey? then Move(after, key, Settling(Ordinary(max, t.item, key)))
      else if committed.Err? && committed.error.Stale? then Move(after, key, Compensating)
      else if t.item.outbox[key].attempts < max then Move(after, key, Settling(ToRetry))
      else Move(after, key, Confirming)
  }

  /** EventDelivered, asked before compensating. */
  function DoConfirm(t: Track, key: Key, answered: bool): Track {
    if !At(t, key, Confirming) then t
    else if !answered then Move(t, key, Settling(ToRetry))
    else if t.item.outbox[key].status.Delivered? then End(t, key)
    else Move(t, key, Compensating)
  }

  function DoCompensate(t: Track, key: Key, fault: Fault): Track {
    if !At(t, key, Compensating) || !key.PublishKey? then t
    else if fault.LostBefore? then Move(t, key, Settling(ToRetry))
    else
      var event := t.item.outbox[key];
      var done := t.attempts[key].done;
      var after := t.(item := FailPublish(t.item, key.version, Held(event.covers, key.version, done)),
                      dropped := t.dropped + GrantSet(event.covers.Keys - done, key.version));
      if fault.Fine? then End(after, key) else Move(after, key, Settling(ToRetry))
  }

  /** Retry, Defer and Fail. The first two only touch an event that is still processing. */
  function DoSettle(t: Track, key: Key, fault: Fault): Track {
    if key !in t.attempts || !t.attempts[key].phase.Settling? || key !in t.item.outbox then t
    else if fault.LostBefore? then End(t, key)
    else
      var event := t.item.outbox[key];
      var verdict := t.attempts[key].phase.verdict;
      if verdict.ToFail? then
        End(t.(item := Fail(t.item, key),
               dropped := if key.PublishKey? then t.dropped + GrantSet(event.covers.Keys, key.version) else t.dropped), key)
      else if !event.status.Processing? then End(t, key)
      else
        var left := if verdict.ToRetry? then event.attempts else if event.attempts == 0 then 0 else event.attempts - 1;
        End(t.(item := t.item.(outbox := Written(t.item.outbox, key, Waiting, left))), key)
  }

  function Next(r: Rules, max: nat, taken: set<string>, t: Track, step: Step): Track {
    match step
    case Do(expected, op) => (match Apply(r, t.item, expected, taken, op) case Ok(item) => t.(item := item) case Err(_) => t)
    case Claim(key) => DoClaim(t, key)
    case GetAsset(key, reply) => DoGetAsset(max, t, key, reply)
    case CreateGrant(key, fault) => DoCreateGrant(max, t, key, fault)
    case RevokeNext(key, fault) => DoRevokeNext(t, key, fault)
    case Complete(key, fault) => DoComplete(r, max, t, key, fault)
    case Confirm(key, answered) => DoConfirm(t, key, answered)
    case Compensate(key, fault) => DoCompensate(t, key, fault)
    case Settle(key, fault) => DoSettle(t, key, fault)
    case Crash(key) => End(t, key)
  }

  // ---------------------------------------------------------------- all items

  type Newsroom = map<Id, Track>

  /** The slugs of all items but one. */
  function SlugsOfOthers(room: Newsroom, id: Id): set<string> {
    set other | other in room && other != id && room[other].item.entry.Some? :: room[other].item.entry.value.content.slug
  }

  /** `Create` gives the item a new id. */
  datatype Turn = Create(id: Id, content: NewsContent) | On(id: Id, step: Step)

  function Advance(r: Rules, max: nat, room: Newsroom, turn: Turn): Newsroom {
    match turn
    case Create(id, content) =>
      if id in room || content.slug in SlugsOfOthers(room, id) then room
      else room[id := Track(NewItem(content), {}, {}, map[], {})]
    case On(id, step) =>
      if id !in room then room
      else room[id := Next(r, max, SlugsOfOthers(room, id), room[id], step)]
  }

  function Run(r: Rules, max: nat, room: Newsroom, turns: seq<Turn>): Newsroom
    decreases turns
  {
    if turns == [] then room else Run(r, max, Advance(r, max, room, turns[0]), turns[1..])
  }
}
