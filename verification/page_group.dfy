/** The tables behind one page group (Home with its videos, or About with its history
    entries) and what each repository transaction does to them, as functions.

    Every function returns either the new tables or an error, in which case the transaction
    rolled back. `page_group_repository.dfy` holds the transactions in their imperative form
    and proves each equal to the function of the same name here. */
module PageGroup {
  import opened ContentModel

  /** What the group is, and the parts of the program the model leaves open: payload
      validation, the public URL of an asset, and the manifest digest. They are arbitrary
      functions, so everything proved holds for whatever they compute. */
  datatype Rules = Rules(
    kind: GroupKind,
    pageOk: PageContent -> bool,
    childOk: Content -> bool,
    publicUrl: string -> string,
    digest: Manifest -> nat)

  datatype Action = Keep | Publish | Remove

  datatype Member = Member(source: Version, target: Version, action: Action)

  /** The items of a manifest, keyed by entry id. `manifest_order.dfy` justifies the map. */
  datatype Manifest = Manifest(source: Version, target: Version, items: map<Id, Member>)

  datatype ManifestStatus = ManifestPending | ManifestPublished | ManifestFailed | ManifestUnpublished

  datatype ManifestRow = ManifestRow(manifest: Manifest, sha: nat, status: ManifestStatus)

  /** A public grant is identified with the idempotency key it was created under, and the
      Home keys differ only in the page version. */
  type Grant = Version

  datatype Banner = Banner(asset: string, grant: Grant, version: Version)

  datatype Page = Page(
    version: Version,
    status: Status,
    content: PageContent,
    live: Option<Banner>,
    revisions: map<Version, PageContent>)

  /** A video or history entry with its own `content_revision` rows, which go when it goes. */
  datatype Child = Child(
    version: Version,
    status: Status,
    content: Content,
    revisions: map<Version, Content>)

  /** Outbox rows, keyed by their idempotency key. */
  datatype EventKey =
    | PublishKey(version: Version)
    | RevokeKey(grant: Grant)
    | CompensateKey(version: Version, grant: Grant)

  datatype EventPayload =
    | PublishPayload(asset: string, sha: Option<nat>, version: Version)
    | RevokePayload(asset: string, grant: Grant)

  datatype Event = Event(status: EventStatus, attempts: nat, payload: EventPayload)

  datatype Db = Db(
    page: Page,
    children: map<Id, Child>,
    pageRows: Rows,
    childRows: map<Id, Rows>,
    manifests: map<Version, ManifestRow>,
    outbox: map<EventKey, Event>)

  // ---------------------------------------------------------------- rendering

  function ChildRowsOf(content: Content, v: Version): (rows: Rows) {
    map l | l in content.translations :: Row(v, ChildPayload(content.youtubeId, content.fields, content.translations[l]))
  }

  function PageRowsOf(r: Rules, content: PageContent, v: Version): (rows: Rows) {
    map l | l in content.translations ::
      Row(v, if content.template.HomeV2?
             then PagePayload(content.template, content.indexable, content.settings,
                              content.translations[l], r.publicUrl(content.banner))
             else PagePayload(content.template, content.indexable, "", content.translations[l], ""))
  }

  // ---------------------------------------------------------------- guards

  /** lockContentVersion */
  function Lock(version: Version, status: Status, expected: Version): Result<()> {
    if version != expected then Err(Precondition)
    else if Busy(status) then Err(Conflict)
    else Ok(())
  }

  function LockChild(db: Db, id: Id, expected: Version): Result<()> {
    if id !in db.children then Err(NotFound)
    else Lock(db.children[id].version, db.children[id].status, expected)
  }

  /** requireFiveLocales */
  predicate PageReady(r: Rules, content: PageContent) {
    r.pageOk(content) && content.translations.Keys == FIVE_LOCALES
  }

  predicate ChildReady(r: Rules, content: Content) {
    r.childOk(content) && content.translations.Keys == FIVE_LOCALES
  }

  /** The public rows of a child; none when it has no entry. */
  function RowsFor(childRows: map<Id, Rows>, id: Id): Rows {
    if id in childRows then childRows[id] else map[]
  }

  predicate HasRows(db: Db, id: Id) {
    RowsFor(db.childRows, id) != map[]
  }

  predicate NamedByManifest(manifests: map<Version, ManifestRow>, id: Id) {
    exists v | v in manifests :: id in manifests[v].manifest.items
  }

  // ---------------------------------------------------------------- unique YouTube ids

  predicate SameVideo(a: Content, b: Content) {
    a.youtubeId.Some? && a.youtubeId == b.youtubeId
  }

  /** Writing `content` into child `id` violates the unique YouTube id. */
  predicate VideoTaken(children: map<Id, Child>, id: Id, content: Content) {
    exists other | other in children && other != id :: SameVideo(children[other].content, content)
  }

  // ---------------------------------------------------------------- editing

  /** touchPageGroup: any change to a child turns the page back into a draft. */
  function Touch(page: Page): Result<Page> {
    if Busy(page.status) then Err(Conflict)
    else Ok(page.(status := Draft, version := page.version + 1))
  }

  function CreateChild(db: Db, id: Id, content: Content): Result<Db> {
    if id in db.children then Err(Duplicate)
    else if VideoTaken(db.children, id, content) then Err(Conflict)
    else
      var page :- Touch(db.page);
      Ok(db.(page := page, children := db.children[id := Child(1, Draft, content, map[1 := content])]))
  }

  /** An entry after one more version with the given status and content, and its revision. */
  function Revised(child: Child, status: Status, content: Content): Result<Child> {
    var v := child.version + 1;
    if v in child.revisions then Err(Duplicate)
    else Ok(Child(v, status, content, child.revisions[v := content]))
  }

  function UpdateChild(db: Db, id: Id, expected: Version, content: Content): Result<Db> {
    var _ :- LockChild(db, id, expected);
    if VideoTaken(db.children, id, content) then Err(Conflict)
    else
      var child :- Revised(db.children[id], Draft, content);
      var page :- Touch(db.page);
      Ok(db.(page := page, children := db.children[id := child]))
  }

  /** A live child, or one any manifest names, is only marked for removal. */
  function DeleteChild(db: Db, id: Id, expected: Version): Result<Db> {
    var _ :- LockChild(db, id, expected);
    var child := db.children[id];
    if HasRows(db, id) || NamedByManifest(db.manifests, id) then
      var page :- Touch(db.page);
      var removed :- Revised(child, PendingRemoval, child.content);
      Ok(db.(page := page, children := db.children[id := removed]))
    else if child.status.Published? || child.status.UnpublishFailed? then Err(Conflict)
    else
      var page :- Touch(db.page);
      Ok(db.(page := page, children := db.children - {id}, childRows := db.childRows - {id}))
  }

  function RevisedPage(page: Page, status: Status, content: PageContent): Result<Page> {
    var v := page.version + 1;
    if v in page.revisions then Err(Duplicate)
    else Ok(page.(version := v, status := status, content := content, revisions := page.revisions[v := content]))
  }

  /** An edit may not change the template; a restore may. */
  function UpdatePage(db: Db, expected: Version, content: PageContent): Result<Db> {
    var _ :- Lock(db.page.version, db.page.status, expected);
    if content.template != db.page.content.template then Err(Invalid)
    else
      var page :- RevisedPage(db.page, Draft, content);
      Ok(db.(page := page))
  }

  /** applyDraft of the Home v2 migration: a published first-template Home becomes a draft on
      the second template, without a banner. `home_migration.dfy` computes the target. */
  function MigrateHome(r: Rules, db: Db, settings: string, translations: map<Locale, string>): Result<Db> {
    var content := db.page.content;
    if !r.kind.Home? || !content.template.HomeV1? || !db.page.status.Published? then Err(Invalid)
    else
      var page :- RevisedPage(db.page, Draft, PageContent(HomeV2, content.indexable, "", settings, translations));
      Ok(db.(page := page))
  }

  // ---------------------------------------------------------------- manifests

  /** The guards of NewPageGroupManifest. */
  predicate ValidManifest(m: Manifest) {
    && 1 <= m.source <= m.target
    && forall id | id in m.items :: 1 <= m.items[id].source <= m.items[id].target
  }

  function InsertManifest(r: Rules, db: Db, m: Manifest, status: ManifestStatus): Result<Db> {
    if !ValidManifest(m) then Err(Invalid)
    else if m.target in db.manifests then Err(Duplicate)
    else Ok(db.(manifests := db.manifests[m.target := ManifestRow(m, r.digest(m), status)]))
  }

  /** Statuses a child may have when a manifest is collected. */
  predicate Collects(status: Status) {
    !Busy(status) && !status.UnpublishFailed?
  }

  function MemberFor(child: Child): Member {
    match child.status
    case PendingRemoval => Member(child.version, child.version + 1, Remove)
    case Published => Member(child.version, child.version, Keep)
    case _ => Member(child.version, child.version + 1, Publish)
  }

  function CollectItems(children: map<Id, Child>): map<Id, Member> {
    map id | id in children && !children[id].status.Unpublished? :: MemberFor(children[id])
  }

  predicate AllReady(r: Rules, children: map<Id, Child>) {
    forall id | id in children && !children[id].status.Unpublished? && !children[id].status.PendingRemoval? ::
      ChildReady(r, children[id].content)
  }

  /** collectGroupManifest. The program reports the first offending child in id order; the
      function reports a status conflict first. Reachable tables have no such status. */
  function Collect(r: Rules, db: Db, target: Version): Result<Manifest> {
    if exists id | id in db.children :: !Collects(db.children[id].status) then Err(Conflict)
    else if !AllReady(r, db.children) then Err(NotPublishable)
    else Ok(Manifest(db.page.version, target, CollectItems(db.children)))
  }

  /** The manifest that describes rows published before any manifest existed. */
  function BaselineItems(childRows: map<Id, Rows>): map<Id, Member> {
    map id | id in childRows && childRows[id] != map[] ::
      Member(VersionOf(childRows[id]), VersionOf(childRows[id]), Keep)
  }

  predicate MixedVersions(db: Db) {
    || !Uniform(db.pageRows)
    || exists id | id in db.childRows :: !Uniform(db.childRows[id])
  }

  function CaptureBaseline(r: Rules, db: Db): Result<Db> {
    if db.manifests != map[] || db.pageRows == map[] then Ok(db)
    else if MixedVersions(db) then Err(Conflict)
    else
      var v := VersionOf(db.pageRows);
      InsertManifest(r, db, Manifest(v, v, BaselineItems(db.childRows)), ManifestPublished)
  }

  // ---------------------------------------------------------------- going live

  /** What publishing does to one child under its manifest member. */
  function PublishMember(child: Child, m: Member): Child {
    match m.action
    case Keep => child.(status := Published)
    case Publish => Child(m.target, Published, child.content, child.revisions[m.target := child.content])
    case Remove => child.(version := m.target, status := Unpublished)
  }

  function PublishMembers(children: map<Id, Child>, items: map<Id, Member>): map<Id, Child> {
    map id | id in children :: if id in items then PublishMember(children[id], items[id]) else children[id]
  }

  function MemberRows(children: map<Id, Child>, items: map<Id, Member>): map<Id, Rows> {
    map id | id in items && id in children && !items[id].action.Remove? ::
      ChildRowsOf(children[id].content, items[id].target)
  }

  /** A publish member whose target revision already exists violates the revision key. */
  predicate RevisionClash(children: map<Id, Child>, items: map<Id, Member>) {
    exists id | id in items && id in children && items[id].action.Publish? ::
      items[id].target in children[id].revisions
  }

  /** The tables once manifest `m` is live: page and children published together. */
  function GoLive(r: Rules, db: Db, m: Manifest, live: Option<Banner>): Result<Db> {
    var page := db.page;
    if RevisionClash(db.children, m.items) || m.target in page.revisions then Err(Duplicate)
    else Ok(db.(
      page := Page(m.target, Published, page.content, live, page.revisions[m.target := page.content]),
      children := PublishMembers(db.children, m.items),
      pageRows := PageRowsOf(r, page.content, m.target),
      childRows := MemberRows(db.children, m.items)))
  }

  /** enqueueGrantRevoke: ON CONFLICT DO NOTHING */
  function EnqueueRevoke(outbox: map<EventKey, Event>, banner: Banner): map<EventKey, Event> {
    var key := RevokeKey(banner.grant);
    if key in outbox then outbox
    else outbox[key := Event(Waiting, 0, RevokePayload(banner.asset, banner.grant))]
  }

  /** Drop the recorded banner grant and queue its revocation. */
  function RetireBanner(r: Rules, db: Db): Db {
    if r.kind.Home? && db.page.live.Some? then
      db.(page := db.page.(live := None), outbox := EnqueueRevoke(db.outbox, db.page.live.value))
    else db
  }

  /** publishPageGroup: About, and Home on its first template. */
  function PublishGroup(r: Rules, db: Db, expected: Version): Result<Db> {
    var _ :- Lock(db.page.version, db.page.status, expected);
    if (r.kind.Home? && !db.page.content.template.HomeV1?) || !PageReady(r, db.page.content) then Err(NotPublishable)
    else
      var based :- CaptureBaseline(r, db);
      var m :- Collect(r, based, expected + 1);
      var recorded :- InsertManifest(r, based, m, ManifestPublished);
      var live :- GoLive(r, recorded, m, recorded.page.live);
      Ok(RetireBanner(r, live))
  }

  /** The tables once manifest `m` is frozen and its banner handed to the worker. */
  function Freeze(r: Rules, db: Db, m: Manifest): Db {
    var payload := PublishPayload(db.page.content.banner, Some(r.digest(m)), m.target);
    db.(page := db.page.(status := Publishing, version := m.target),
        outbox := db.outbox[PublishKey(m.target) := Event(Waiting, 0, payload)])
  }

  /** startHomePublish */
  function StartHomePublish(r: Rules, db: Db, expected: Version): Result<Db> {
    var _ :- Lock(db.page.version, db.page.status, expected);
    var content := db.page.content;
    if !r.kind.Home? || !content.template.HomeV2? || content.banner == "" || !PageReady(r, content) then Err(NotPublishable)
    else
      var based :- CaptureBaseline(r, db);
      var m :- Collect(r, based, expected + 1);
      var recorded :- InsertManifest(r, based, m, ManifestPending);
      if PublishKey(m.target) in recorded.outbox then Err(Duplicate) else Ok(Freeze(r, recorded, m))
  }

  /** loadPendingGroupManifest */
  function LoadPending(r: Rules, db: Db, v: Version, sha: Option<nat>): Result<Manifest> {
    if v !in db.manifests || !db.manifests[v].status.ManifestPending? then Err(Stale)
    else
      var row := db.manifests[v];
      if sha != Some(row.sha) then Err(Stale)
      else if !ValidManifest(row.manifest) || r.digest(row.manifest) != row.sha || row.manifest.target != v then Err(Stale)
      else Ok(row.manifest)
  }

  predicate MemberCurrent(child: Child, m: Member) {
    && child.version == m.source
    && match m.action
       case Keep => child.status.Published?
       case Publish => child.status.Draft? || child.status.PublishFailed?
       case Remove => child.status.PendingRemoval?
  }

  /** validateGroupManifestChildren */
  predicate MembersCurrent(children: map<Id, Child>, items: map<Id, Member>) {
    forall id | id in items :: id in children && MemberCurrent(children[id], items[id])
  }

  /** completeHomePublish for the event of version `v`, with the grant the worker obtained. */
  function CompleteHomePublish(r: Rules, db: Db, v: Version, grant: Grant): Result<Db> {
    var key := PublishKey(v);
    if key !in db.outbox || !db.outbox[key].payload.PublishPayload? then Err(NotFound)
    else if db.outbox[key].status.Delivered? then Ok(db)
    else
      var payload := db.outbox[key].payload;
      var page := db.page;
      if !page.status.Publishing? || page.version != payload.version || !page.content.template.HomeV2? then Err(Stale)
      else
        var m :- LoadPending(r, db, page.version, payload.sha);
        if page.content.banner != payload.asset || !MembersCurrent(db.children, m.items) then Err(Stale)
        else
          var live :- GoLive(r, db, m, Some(Banner(payload.asset, grant, page.version)));
          var delivered := live.(
            manifests := db.manifests[page.version := db.manifests[page.version].(status := ManifestPublished)],
            outbox := db.outbox[key := db.outbox[key].(status := Delivered)]);
          if page.live.Some? && page.live.value.grant != grant then
            Ok(delivered.(outbox := EnqueueRevoke(delivered.outbox, page.live.value)))
          else Ok(delivered)
  }

  // ---------------------------------------------------------------- unpublishing

  function Withdrawn(child: Child): Child {
    Child(child.version + 1, Unpublished, child.content, child.revisions[child.version + 1 := child.content])
  }

  function WithdrawMembers(children: map<Id, Child>, items: map<Id, Member>): map<Id, Child> {
    map id | id in children :: if id in items then Withdrawn(children[id]) else children[id]
  }

  function WithdrawItems(children: map<Id, Child>, childRows: map<Id, Rows>): map<Id, Member> {
    map id | id in children && RowsFor(childRows, id) != map[] ::
      Member(children[id].version, children[id].version + 1, Remove)
  }

  /** The tables once page and members are hidden. */
  function Hide(db: Db, page: Page, items: map<Id, Member>): Db {
    db.(page := page, children := WithdrawMembers(db.children, items), pageRows := map[], childRows := map[])
  }

  function Withdraw(r: Rules, db: Db): Result<Db> {
    var m := Manifest(db.page.version, db.page.version + 1, WithdrawItems(db.children, db.childRows));
    var recorded :- InsertManifest(r, db, m, ManifestUnpublished);
    if exists id | id in m.items :: m.items[id].target in db.children[id].revisions then Err(Duplicate)
    else
      var page :- RevisedPage(db.page, Unpublished, db.page.content);
      Ok(RetireBanner(r, Hide(recorded, page, m.items)))
  }

  /** unpublishAboutGroup and unpublishHomeGroup. */
  function UnpublishGroup(r: Rules, db: Db, expected: Version): Result<Db> {
    var _ :- Lock(db.page.version, db.page.status, expected);
    if db.pageRows == map[] then Err(NotPublishable)
    else
      var based :- CaptureBaseline(r, db);
      Withdraw(r, based)
  }

  // ---------------------------------------------------------------- restoring

  /** The revision a member names can be read. */
  predicate OnRecord(children: map<Id, Child>, items: map<Id, Member>, id: Id) {
    id in items && id in children && items[id].target in children[id].revisions
  }

  function Record(children: map<Id, Child>, items: map<Id, Member>, id: Id): Content
    requires OnRecord(children, items, id)
  {
    children[id].revisions[items[id].target]
  }

  /** What child `other` holds when the loop over members, by id, comes to member `id`. */
  function ContentAt(children: map<Id, Child>, items: map<Id, Member>, id: Id, other: Id): Content
    requires other in children
  {
    if Less(other, id) && OnRecord(children, items, other) then Record(children, items, other) else children[other].content
  }

  /** Writing back the recorded content of member `id` then violates the unique YouTube id. */
  predicate Collides(children: map<Id, Child>, items: map<Id, Member>, id: Id) {
    OnRecord(children, items, id) &&
    exists other | other in children && other != id ::
      SameVideo(ContentAt(children, items, id, other), Record(children, items, id))
  }

  /** The next revision of a child exists already. */
  predicate RevisionAhead(children: map<Id, Child>) {
    exists id | id in children :: children[id].version + 1 in children[id].revisions
  }

  /** The error that stops the loop at member `id`. */
  function MemberError(children: map<Id, Child>, items: map<Id, Member>, id: Id): Option<Error> {
    if !OnRecord(children, items, id) then Some(NotFound)
    else if Collides(children, items, id) || children[id].version + 1 in children[id].revisions then Some(Duplicate)
    else None
  }

  predicate NoErrorBefore(children: map<Id, Child>, items: map<Id, Member>, id: Id) {
    forall earlier | earlier in items && Less(earlier, id) :: MemberError(children, items, earlier).None?
  }

  /** The loops stop at the first member, by id, that has an error, or at another child. */
  function RestoreError(children: map<Id, Child>, items: map<Id, Member>): (error: Option<Error>)
    ensures error.None? ==> SnapshotsExist(children, items)
  {
    if exists id | id in items :: MemberError(children, items, id) == Some(NotFound) && NoErrorBefore(children, items, id) then
      Some(NotFound)
    else if (exists id | id in items :: MemberError(children, items, id).Some?) || RevisionAhead(children) then Some(Duplicate)
    else
      assert forall id | id in items :: MemberError(children, items, id).None?;
      None
  }

  function RestoredContent(child: Child, id: Id, items: map<Id, Member>): Content
    requires id in items ==> items[id].target in child.revisions
  {
    if id in items then child.revisions[items[id].target] else child.content
  }

  function RestoredStatus(id: Id, items: map<Id, Member>): Status {
    if id in items && !items[id].action.Remove? then Draft else PendingRemoval
  }

  predicate SnapshotsExist(children: map<Id, Child>, items: map<Id, Member>) {
    forall id | id in items :: OnRecord(children, items, id)
  }

  /** Every child gets a new version: members with the content of the revision, everything
      else marked for removal. */
  function RestoreChildren(children: map<Id, Child>, items: map<Id, Member>): map<Id, Child>
    requires SnapshotsExist(children, items)
  {
    map id | id in children ::
      var content := RestoredContent(children[id], id, items);
      Child(children[id].version + 1, RestoredStatus(id, items), content,
            children[id].revisions[children[id].version + 1 := content])
  }

  /** RestorePageGroup */
  function RestoreGroup(r: Rules, db: Db, revision: Version, expected: Version): Result<Db> {
    var _ :- Lock(db.page.version, db.page.status, expected);
    if revision !in db.manifests || revision !in db.page.revisions ||
       !(db.manifests[revision].status.ManifestPublished? || db.manifests[revision].status.ManifestUnpublished?) then
      Err(NotFound)
    else if !ValidManifest(db.manifests[revision].manifest) ||
            r.digest(db.manifests[revision].manifest) != db.manifests[revision].sha then
      Err(Invalid)
    else
      var items := db.manifests[revision].manifest.items;
      match RestoreError(db.children, items)
      case Some(error) => Err(error)
      case None =>
        var page :- RevisedPage(db.page, Draft, db.page.revisions[revision]);
        Ok(db.(page := page, children := RestoreChildren(db.children, items)))
  }

  // ---------------------------------------------------------------- failing

  /** failEvent for a Home publication. */
  function FailPublication(db: Db, v: Version): Result<Db> {
    var key := PublishKey(v);
    if key !in db.outbox || !db.outbox[key].payload.PublishPayload? then Err(NotFound)
    else
      var payload := db.outbox[key].payload;
      var page := if db.page.version == payload.version && db.page.status.Publishing?
                  then db.page.(status := PublishFailed) else db.page;
      var manifests :=
        if payload.version in db.manifests && db.manifests[payload.version].status.ManifestPending? &&
           payload.sha == Some(db.manifests[payload.version].sha)
        then db.manifests[payload.version := db.manifests[payload.version].(status := ManifestFailed)]
        else db.manifests;
      Ok(db.(page := page, manifests := manifests, outbox := db.outbox[key := db.outbox[key].(status := FailedEvent)]))
  }

  /** FailContentPublish: fail the event and queue the revocation of the grant it obtained. */
  function FailHomePublish(db: Db, v: Version, grant: Grant): Result<Db> {
    var failed :- FailPublication(db, v);
    var key := CompensateKey(v, grant);
    if key in failed.outbox then Ok(failed)
    else
      Ok(failed.(outbox := failed.outbox[key := Event(Waiting, 0, RevokePayload(db.outbox[PublishKey(v)].payload.asset, grant))]))
  }
}
