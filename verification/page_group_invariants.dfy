/** What every reachable state of a page group satisfies, and that each transaction keeps it. */
module PageGroupInvariants {
  import opened ContentModel
  import opened PageGroup

  // ---------------------------------------------------------------- the invariant

  /** The page definitions the schema admits. */
  predicate TemplateOf(kind: GroupKind, template: Template) {
    kind.About? <==> template.AboutV1?
  }

  /** A page is published exactly when its rows carry its current version, and whatever rows
      there are, in all five locales, render one stored revision no newer than the page. */
  ghost predicate PageInv(r: Rules, page: Page, rows: Rows) {
    && 1 <= page.version
    && TemplateOf(r.kind, page.content.template)
    && (forall v | v in page.revisions :: TemplateOf(r.kind, page.revisions[v].template))
    && (forall v | v in page.revisions :: 1 <= v <= page.version)
    && (page.status.Published? <==> CompleteAt(rows, page.version))
    && (page.version in page.revisions ==> page.revisions[page.version] == page.content)
    && (page.status.Published? ==> page.version in page.revisions)
    && (page.status.Unpublished? ==> rows == map[])
    && (rows != map[] ==>
          var w := VersionOf(rows);
          && w <= page.version
          && CompleteAt(rows, w)
          && w in page.revisions
          && rows == PageRowsOf(r, page.revisions[w], w))
  }

  /** The same of one child and its rows, if it has any. */
  ghost predicate ChildInv(child: Child, rows: Rows) {
    && 1 <= child.version
    && Collects(child.status)
    && (forall v | v in child.revisions :: 1 <= v <= child.version)
    && (child.status.Published? <==> CompleteAt(rows, child.version))
    && (child.version in child.revisions ==> child.revisions[child.version] == child.content)
    && (!child.status.Unpublished? ==> child.version in child.revisions)
    && (child.status.Unpublished? ==> rows == map[])
    && (rows != map[] ==>
          var w := VersionOf(rows);
          && w <= child.version
          && CompleteAt(rows, w)
          && w in child.revisions
          && rows == ChildRowsOf(child.revisions[w], w))
  }

  /** The unique constraint on YouTube ids. */
  ghost predicate VideosUnique(children: map<Id, Child>) {
    forall a, b | a in children && b in children && a != b :: !SameVideo(children[a].content, children[b].content)
  }

  ghost predicate ChildrenInv(children: map<Id, Child>, childRows: map<Id, Rows>) {
    && VideosUnique(children)
    && childRows.Keys <= children.Keys
    && (forall id | id in childRows :: childRows[id] != map[])
    && forall id | id in children :: ChildInv(children[id], RowsFor(childRows, id))
  }

  /** A member of a settled manifest: its target version was reached, and it left a revision
      unless a publication removed it. */
  ghost predicate MemberInv(children: map<Id, Child>, id: Id, m: Member, status: ManifestStatus) {
    && id in children
    && (status.ManifestPublished? ==>
          m.target <= children[id].version && (m.action.Remove? <==> m.target !in children[id].revisions))
    && (status.ManifestUnpublished? ==>
          m.action.Remove? && m.target <= children[id].version && m.target in children[id].revisions)
  }

  /** No two recorded videos have the same YouTube id. */
  ghost predicate RecordsDistinct(children: map<Id, Child>, items: map<Id, Member>) {
    forall a, b | OnRecord(children, items, a) && OnRecord(children, items, b) && a != b ::
      !SameVideo(Record(children, items, a), Record(children, items, b))
  }

  predicate SettledStatus(status: ManifestStatus) {
    status.ManifestPublished? || status.ManifestUnpublished?
  }

  /** Only the manifest of what was live before there were manifests has its page's version both
      as source and as target; what it names need not have been live side by side with unique
      YouTube ids, since every child was published on its own. */
  ghost predicate ManifestInv(r: Rules, page: Page, children: map<Id, Child>, v: Version, row: ManifestRow) {
    && v <= page.version
    && row.manifest.target == v
    && ValidManifest(row.manifest)
    && row.sha == r.digest(row.manifest)
    && (SettledStatus(row.status) ==> v in page.revisions)
    && (SettledStatus(row.status) && row.manifest.source < row.manifest.target ==> RecordsDistinct(children, row.manifest.items))
    && (row.status.ManifestPending? ==> page.status.Publishing? && v == page.version)
    && forall id | id in row.manifest.items :: MemberInv(children, id, row.manifest.items[id], row.status)
  }

  ghost predicate ManifestsInv(r: Rules, page: Page, children: map<Id, Child>, manifests: map<Version, ManifestRow>) {
    forall v | v in manifests :: ManifestInv(r, page, children, v, manifests[v])
  }

  predicate LiveEvent(event: Event) {
    event.status.Waiting? || event.status.Processing?
  }

  /** While Home is publishing, the manifest frozen for its version still is what a fresh
      collection over the children would produce, and the one live event carries its digest. */
  ghost predicate Frozen(r: Rules, db: Db) {
    var v := db.page.version;
    && r.kind.Home?
    && db.page.content.template.HomeV2?
    && PageReady(r, db.page.content)
    && AllReady(r, db.children)
    && v in db.manifests
    && db.manifests[v].status.ManifestPending?
    && db.manifests[v].manifest.items == CollectItems(db.children)
    && v !in db.page.revisions
    && PublishKey(v) in db.outbox
    && LiveEvent(db.outbox[PublishKey(v)])
    && db.outbox[PublishKey(v)].payload == PublishPayload(db.page.content.banner, Some(db.manifests[v].sha), v)
  }

  ghost predicate PublishEventInv(page: Page, manifests: map<Version, ManifestRow>, v: Version, event: Event) {
    && event.payload.PublishPayload?
    && event.payload.version == v
    && v <= page.version
    && (LiveEvent(event) ==> page.status.Publishing? && v == page.version)
    && (event.status.Delivered? ==> v in manifests && manifests[v].status.ManifestPublished?)
    && (event.status.FailedEvent? ==> v in manifests && manifests[v].status.ManifestFailed?)
  }

  ghost predicate EventsInv(page: Page, manifests: map<Version, ManifestRow>, outbox: map<EventKey, Event>) {
    forall v | PublishKey(v) in outbox :: PublishEventInv(page, manifests, v, outbox[PublishKey(v)])
  }

  predicate DeliveredAt(outbox: map<EventKey, Event>, v: Version) {
    PublishKey(v) in outbox && outbox[PublishKey(v)].status.Delivered?
  }

  predicate FailedAt(outbox: map<EventKey, Event>, v: Version) {
    PublishKey(v) in outbox && outbox[PublishKey(v)].status.FailedEvent?
  }

  predicate Records(live: Option<Banner>, g: Grant) {
    live.Some? && live.value.grant == g
  }

  predicate Revokes(event: Event, g: Grant) {
    event.payload.RevokePayload? && event.payload.grant == g
  }

  /** Recorded grants are conserved: the grant of a delivered publication is recorded on the
      page or its revocation was queued, never both; only failed publications are compensated. */
  ghost predicate GrantInv(live: Option<Banner>, outbox: map<EventKey, Event>) {
    && (live.Some? ==> DeliveredAt(outbox, live.value.grant))
    && (forall g | DeliveredAt(outbox, g) :: Records(live, g) <==> RevokeKey(g) !in outbox)
    && (forall g | RevokeKey(g) in outbox :: DeliveredAt(outbox, g) && Revokes(outbox[RevokeKey(g)], g))
    && (forall v, g | CompensateKey(v, g) in outbox ::
          g == v && FailedAt(outbox, v) && Revokes(outbox[CompensateKey(v, g)], g))
  }

  ghost predicate Inv(r: Rules, db: Db) {
    && PageInv(r, db.page, db.pageRows)
    && ChildrenInv(db.children, db.childRows)
    && ManifestsInv(r, db.page, db.children, db.manifests)
    && EventsInv(db.page, db.manifests, db.outbox)
    && (db.page.status.Publishing? ==> Frozen(r, db))
    && GrantInv(db.page.live, db.outbox)
    && (r.kind.About? ==> db.page.live.None?)
  }

  lemma InvParts(r: Rules, db: Db)
    requires Inv(r, db)
    ensures PageInv(r, db.page, db.pageRows) && ChildrenInv(db.children, db.childRows) && GrantInv(db.page.live, db.outbox)
    ensures db.page.status.Publishing? ==> Frozen(r, db)
  {
  }

  // ---------------------------------------------------------------- one entry

  /** A later state of the same child: versions only grow, and the only new revisions are at
      newer versions. */
  ghost predicate Extends(before: Child, after: Child) {
    && before.version <= after.version
    && (forall v | v in before.revisions :: v in after.revisions && after.revisions[v] == before.revisions[v])
    && (forall v | v in after.revisions && v !in before.revisions :: before.version < v)
  }

  lemma RevisedKeeps(child: Child, rows: Rows, status: Status, content: Content)
    requires ChildInv(child, rows) && (status.Draft? || status.PendingRemoval?)
    ensures Revised(child, status, content).Ok?
    ensures ChildInv(Revised(child, status, content).value, rows)
    ensures Extends(child, Revised(child, status, content).value)
  {
    if rows != map[] { CompleteRowsAreUniform(rows, VersionOf(rows)); }
  }

  lemma TouchKeeps(r: Rules, page: Page, rows: Rows)
    requires PageInv(r, page, rows) && !Busy(page.status)
    ensures PageInv(r, Touch(page).value, rows)
  {
    if rows != map[] { CompleteRowsAreUniform(rows, VersionOf(rows)); }
  }

  lemma RevisedPageKeeps(r: Rules, page: Page, rows: Rows, content: PageContent)
    requires PageInv(r, page, rows) && TemplateOf(r.kind, content.template)
    ensures RevisedPage(page, Draft, content).Ok?
    ensures PageInv(r, RevisedPage(page, Draft, content).value, rows)
  {
    if rows != map[] { CompleteRowsAreUniform(rows, VersionOf(rows)); }
  }

  // ---------------------------------------------------------------- editing

  ghost predicate NamedExtend(manifests: map<Version, ManifestRow>, before: map<Id, Child>, after: map<Id, Child>) {
    forall id | id in before && NamedByManifest(manifests, id) :: id in after && Extends(before[id], after[id])
  }

  ghost predicate PageGrows(before: Page, after: Page) {
    && before.version <= after.version
    && forall v | v in before.revisions :: v in after.revisions && after.revisions[v] == before.revisions[v]
  }

  /** Settled manifests survive any step that leaves them alone and keeps what they name. */
  lemma ManifestKept(r: Rules, db: Db, page: Page, children: map<Id, Child>, v: Version)
    requires v in db.manifests && ManifestInv(r, db.page, db.children, v, db.manifests[v])
    requires !db.manifests[v].status.ManifestPending?
    requires PageGrows(db.page, page) && NamedExtend(db.manifests, db.children, children)
    ensures ManifestInv(r, page, children, v, db.manifests[v])
  {
    var row := db.manifests[v];
    forall id | id in row.manifest.items
      ensures MemberInv(children, id, row.manifest.items[id], row.status)
    {
      assert MemberInv(db.children, id, row.manifest.items[id], row.status);
      assert NamedByManifest(db.manifests, id);
    }
    if SettledStatus(row.status) && row.manifest.source < row.manifest.target {
      RecordsStayDistinct(db.children, children, row.manifest.items);
    }
  }

  /** Recorded revisions are never rewritten, and none is added at a version long passed. */
  lemma RecordsStayDistinct(before: map<Id, Child>, after: map<Id, Child>, items: map<Id, Member>)
    requires RecordsDistinct(before, items)
    requires forall id | id in items ::
      id in before && items[id].target <= before[id].version && id in after && Extends(before[id], after[id])
    ensures RecordsDistinct(after, items)
  {
    forall a, b | OnRecord(after, items, a) && OnRecord(after, items, b) && a != b
      ensures !SameVideo(Record(after, items, a), Record(after, items, b))
    {
      assert OnRecord(before, items, a) && OnRecord(before, items, b);
      assert Record(before, items, a) == Record(after, items, a) && Record(before, items, b) == Record(after, items, b);
    }
  }

  /** An edit: the page and some children change while nothing is publishing. */
  lemma EditKeeps(r: Rules, db: Db, page: Page, children: map<Id, Child>, childRows: map<Id, Rows>)
    requires Inv(r, db) && !db.page.status.Publishing? && !page.status.Publishing?
    requires PageInv(r, page, db.pageRows) && ChildrenInv(children, childRows)
    requires NamedExtend(db.manifests, db.children, children)
    requires PageGrows(db.page, page) && page.live == db.page.live
    ensures Inv(r, db.(page := page, children := children, childRows := childRows))
  {
    forall v | v in db.manifests ensures ManifestInv(r, page, children, v, db.manifests[v]) {
      assert ManifestInv(r, db.page, db.children, v, db.manifests[v]);
      ManifestKept(r, db, page, children, v);
    }
    forall v | PublishKey(v) in db.outbox ensures PublishEventInv(page, db.manifests, v, db.outbox[PublishKey(v)]) {
      assert PublishEventInv(db.page, db.manifests, v, db.outbox[PublishKey(v)]);
    }
  }

  lemma StoreChildKeeps(r: Rules, db: Db, page: Page, id: Id, child: Child)
    requires Inv(r, db) && Touch(db.page) == Ok(page)
    requires ChildInv(child, RowsFor(db.childRows, id))
    requires id in db.children ==> Extends(db.children[id], child)
    requires !VideoTaken(db.children, id, child.content)
    ensures Inv(r, db.(page := page, children := db.children[id := child]))
  {
    hide Inv, PageInv, ChildrenInv, GrantInv, Frozen, ChildInv, VideoTaken, NamedByManifest;
    InvParts(r, db);
    StoredChildrenHold(db.children, db.childRows, id, child);
    TouchKeeps(r, db.page, db.pageRows);
    EditKeeps(r, db, page, db.children[id := child], db.childRows);
  }

  lemma StoredChildrenHold(children: map<Id, Child>, childRows: map<Id, Rows>, id: Id, child: Child)
    requires ChildrenInv(children, childRows) && ChildInv(child, RowsFor(childRows, id)) && !VideoTaken(children, id, child.content)
    ensures ChildrenInv(children[id := child], childRows)
  {
    StoredIsUnique(children, id, child);
    hide VideosUnique, VideoTaken, ChildInv;
  }

  lemma StoredIsUnique(children: map<Id, Child>, id: Id, child: Child)
    requires VideosUnique(children) && !VideoTaken(children, id, child.content)
    ensures VideosUnique(children[id := child])
  {
  }

  lemma OwnVideoIsFree(children: map<Id, Child>, id: Id)
    requires VideosUnique(children) && id in children
    ensures !VideoTaken(children, id, children[id].content)
  {
  }

  lemma DropChildKeeps(r: Rules, db: Db, page: Page, id: Id)
    requires Inv(r, db) && Touch(db.page) == Ok(page) && !NamedByManifest(db.manifests, id)
    ensures Inv(r, db.(page := page, children := db.children - {id}, childRows := db.childRows - {id}))
  {
    hide Inv, PageInv, ChildrenInv, GrantInv, Frozen;
    InvParts(r, db);
    TouchKeeps(r, db.page, db.pageRows);
    DropKeepsChildren(db.children, db.childRows, id);
    EditKeeps(r, db, page, db.children - {id}, db.childRows - {id});
  }

  lemma DropKeepsChildren(children: map<Id, Child>, childRows: map<Id, Rows>, id: Id)
    requires ChildrenInv(children, childRows)
    ensures ChildrenInv(children - {id}, childRows - {id})
  {
    forall k | k in children && k != id ensures ChildInv(children[k], RowsFor(childRows - {id}, k)) {
      assert ChildInv(children[k], RowsFor(childRows, k));
    }
  }

  lemma CreateChildKeeps(r: Rules, db: Db, id: Id, content: Content)
    requires Inv(r, db) && CreateChild(db, id, content).Ok?
    ensures Inv(r, CreateChild(db, id, content).value)
  {
    hide Inv, ChildInv, VideoTaken;
    var after := CreateChild(db, id, content).value;
    InvParts(r, db);
    NewChildHolds(db, id, content);
    StoreChildKeeps(r, db, after.page, id, after.children[id]);
  }

  lemma NewChildHolds(db: Db, id: Id, content: Content)
    requires ChildrenInv(db.children, db.childRows) && id !in db.children
    ensures ChildInv(Child(1, Draft, content, map[1 := content]), RowsFor(db.childRows, id))
  {
  }

  lemma UpdateChildKeeps(r: Rules, db: Db, id: Id, expected: Version, content: Content)
    requires Inv(r, db) && UpdateChild(db, id, expected, content).Ok?
    ensures Inv(r, UpdateChild(db, id, expected, content).value)
  {
    var after := UpdateChild(db, id, expected, content).value;
    RevisedKeeps(db.children[id], RowsFor(db.childRows, id), Draft, content);
    StoreChildKeeps(r, db, after.page, id, after.children[id]);
  }

  lemma DeleteChildKeeps(r: Rules, db: Db, id: Id, expected: Version)
    requires Inv(r, db) && DeleteChild(db, id, expected).Ok?
    ensures Inv(r, DeleteChild(db, id, expected).value)
  {
    hide Inv, ChildInv, HasRows, NamedByManifest, Extends;
    var after := DeleteChild(db, id, expected).value;
    if HasRows(db, id) || NamedByManifest(db.manifests, id) {
      InvParts(r, db);
      RevisedKeeps(db.children[id], RowsFor(db.childRows, id), PendingRemoval, db.children[id].content);
      OwnVideoIsFree(db.children, id);
      StoreChildKeeps(r, db, after.page, id, after.children[id]);
    } else {
      DropChildKeeps(r, db, after.page, id);
    }
  }

  lemma UpdatePageKeeps(r: Rules, db: Db, expected: Version, content: PageContent)
    requires Inv(r, db) && UpdatePage(db, expected, content).Ok?
    ensures Inv(r, UpdatePage(db, expected, content).value)
  {
    RevisedPageKeeps(r, db.page, db.pageRows, content);
    EditKeeps(r, db, UpdatePage(db, expected, content).value.page, db.children, db.childRows);
  }

  lemma MigrateHomeKeeps(r: Rules, db: Db, settings: string, translations: map<Locale, string>)
    requires Inv(r, db) && MigrateHome(r, db, settings, translations).Ok?
    ensures Inv(r, MigrateHome(r, db, settings, translations).value)
  {
    var after := MigrateHome(r, db, settings, translations).value;
    RevisedPageKeeps(r, db.page, db.pageRows, after.page.content);
    EditKeeps(r, db, after.page, db.children, db.childRows);
  }

  /** Where no member collides at its turn, unique ids stay unique. */
  lemma RestoredAreUnique(children: map<Id, Child>, items: map<Id, Member>)
    requires VideosUnique(children) && SnapshotsExist(children, items)
    requires forall id | id in items :: !Collides(children, items, id)
    ensures VideosUnique(RestoreChildren(children, items))
  {
    var after := RestoreChildren(children, items);
    forall a, b | a in children && b in children && a != b ensures !SameVideo(after[a].content, after[b].content) {
      if a in items && (b !in items || Less(b, a)) {
        assert !Collides(children, items, a);
        assert after[b].content == ContentAt(children, items, a, b);
      } else if b in items {
        LessIsTotal(a, b);
        assert !Collides(children, items, b);
        assert after[a].content == ContentAt(children, items, b, a);
      }
    }
  }

  lemma RestoreChildrenKeeps(children: map<Id, Child>, childRows: map<Id, Rows>, items: map<Id, Member>)
    requires ChildrenInv(children, childRows) && SnapshotsExist(children, items)
    requires forall id | id in items :: !Collides(children, items, id)
    ensures ChildrenInv(RestoreChildren(children, items), childRows)
    ensures forall id | id in children :: Extends(children[id], RestoreChildren(children, items)[id])
  {
    hide VideosUnique, Collides, ChildInv, Extends, RestoreChildren, OnRecord;
    RestoredAreUnique(children, items);
    forall id | id in children { RestoreOneKeeps(children, childRows, items, id); }
    RestoreKeepsKeys(children, items);
  }

  lemma RestoreKeepsKeys(children: map<Id, Child>, items: map<Id, Member>)
    requires SnapshotsExist(children, items)
    ensures RestoreChildren(children, items).Keys == children.Keys
  {
  }

  lemma RestoreOneKeeps(children: map<Id, Child>, childRows: map<Id, Rows>, items: map<Id, Member>, id: Id)
    requires ChildrenInv(children, childRows) && SnapshotsExist(children, items) && id in children
    ensures var after := RestoreChildren(children, items)[id];
      ChildInv(after, RowsFor(childRows, id)) && Extends(children[id], after)
  {
    hide VideosUnique, ChildInv, Extends;
    RevisedKeeps(children[id], RowsFor(childRows, id), RestoredStatus(id, items), RestoredContent(children[id], id, items));
  }

  lemma RestoreMeetsNoError(children: map<Id, Child>, items: map<Id, Member>)
    requires RestoreError(children, items).None?
    ensures SnapshotsExist(children, items) && !RevisionAhead(children)
    ensures forall id | id in items :: !Collides(children, items, id)
  {
    assert forall id | id in items :: MemberError(children, items, id).None?;
  }

  lemma RestoreGroupKeeps(r: Rules, db: Db, revision: Version, expected: Version)
    requires Inv(r, db) && RestoreGroup(r, db, revision, expected).Ok?
    ensures Inv(r, RestoreGroup(r, db, revision, expected).value)
  {
    var after := RestoreGroup(r, db, revision, expected).value;
    RestoreMeetsNoError(db.children, db.manifests[revision].manifest.items);
    RestoreChildrenKeeps(db.children, db.childRows, db.manifests[revision].manifest.items);
    RevisedPageKeeps(r, db.page, db.pageRows, db.page.revisions[revision]);
    EditKeeps(r, db, after.page, after.children, after.childRows);
  }

  // ---------------------------------------------------------------- publishing

  /** The mixed-version conflicts of capturePublishedBaseline cannot happen. */
  lemma BaselineNeverConflicts(r: Rules, db: Db)
    requires Inv(r, db)
    ensures !MixedVersions(db)
    ensures CaptureBaseline(r, db).Ok?
  {
    hide ManifestsInv, EventsInv, GrantInv, Frozen;
    PageRowsUniform(r, db.page, db.pageRows);
    ChildRowsUniform(db.children, db.childRows);
    BaselineValid(r, db);
  }

  lemma PageRowsUniform(r: Rules, page: Page, rows: Rows)
    requires PageInv(r, page, rows)
    ensures Uniform(rows)
    ensures rows != map[] ==> 1 <= VersionOf(rows) <= page.version && VersionOf(rows) in page.revisions
  {
    if rows != map[] { CompleteRowsAreUniform(rows, VersionOf(rows)); }
  }

  lemma ChildRowsUniform(children: map<Id, Child>, childRows: map<Id, Rows>)
    requires ChildrenInv(children, childRows)
    ensures forall id | id in childRows :: Uniform(childRows[id]) && childRows[id] != map[] && 1 <= VersionOf(childRows[id])
  {
    forall id | id in childRows ensures Uniform(childRows[id]) && childRows[id] != map[] && 1 <= VersionOf(childRows[id]) {
      assert ChildInv(children[id], RowsFor(childRows, id));
      CompleteRowsAreUniform(childRows[id], VersionOf(childRows[id]));
    }
  }

  lemma BaselineValid(r: Rules, db: Db)
    requires !MixedVersions(db) && (db.pageRows != map[] ==> 1 <= VersionOf(db.pageRows))
    requires forall id | id in db.childRows :: db.childRows[id] != map[] ==> 1 <= VersionOf(db.childRows[id])
    ensures CaptureBaseline(r, db).Ok?
    ensures db.manifests == map[] && db.pageRows != map[] ==>
      var m := Manifest(VersionOf(db.pageRows), VersionOf(db.pageRows), BaselineItems(db.childRows));
      ValidManifest(m) && CaptureBaseline(r, db).value == db.(manifests := map[m.target := ManifestRow(m, r.digest(m), ManifestPublished)])
    ensures db.manifests != map[] || db.pageRows == map[] ==> CaptureBaseline(r, db).value == db
  {
  }

  lemma BaselineKeeps(r: Rules, db: Db)
    requires Inv(r, db)
    ensures CaptureBaseline(r, db).Ok? && Inv(r, CaptureBaseline(r, db).value)
  {
    BaselineNeverConflicts(r, db);
    BaselineFacts(r, db);
    if db.manifests == map[] && db.pageRows != map[] {
      hide CaptureBaseline, Inv;
      var v := VersionOf(db.pageRows);
      FirstManifestKeeps(r, db, Manifest(v, v, BaselineItems(db.childRows)));
    }
  }

  lemma BaselineFacts(r: Rules, db: Db)
    requires Inv(r, db)
    ensures db.manifests != map[] || db.pageRows == map[] ==> CaptureBaseline(r, db) == Ok(db)
    ensures db.manifests == map[] && db.pageRows != map[] ==>
      var m := Manifest(VersionOf(db.pageRows), VersionOf(db.pageRows), BaselineItems(db.childRows));
      && CaptureBaseline(r, db) == Ok(db.(manifests := map[m.target := ManifestRow(m, r.digest(m), ManifestPublished)]))
      && ValidManifest(m) && m.target <= db.page.version && m.target in db.page.revisions
      && forall id | id in m.items :: MemberInv(db.children, id, m.items[id], ManifestPublished)
  {
    hide ManifestsInv, EventsInv, GrantInv, Frozen;
    BaselineNeverConflicts(r, db);
    PageRowsUniform(r, db.page, db.pageRows);
    ChildRowsUniform(db.children, db.childRows);
    BaselineValid(r, db);
    BaselineMembers(db.children, db.childRows);
    hide PageInv, ChildrenInv, BaselineItems, MixedVersions, MemberInv;
  }

  /** The very first manifest, of what is live already. */
  lemma FirstManifestKeeps(r: Rules, db: Db, m: Manifest)
    requires Inv(r, db) && db.manifests == map[] && ValidManifest(m) && m.source == m.target <= db.page.version && m.target in db.page.revisions
    requires forall id | id in m.items :: MemberInv(db.children, id, m.items[id], ManifestPublished)
    ensures Inv(r, db.(manifests := map[m.target := ManifestRow(m, r.digest(m), ManifestPublished)]))
  {
    hide PageInv, ChildrenInv, GrantInv, MemberInv;
  }

  lemma BaselineMembers(children: map<Id, Child>, childRows: map<Id, Rows>)
    requires ChildrenInv(children, childRows)
    ensures var items := BaselineItems(childRows);
      forall id | id in items :: MemberInv(children, id, items[id], ManifestPublished)
  {
    var items := BaselineItems(childRows);
    forall id | id in items ensures MemberInv(children, id, items[id], ManifestPublished) {
      assert ChildInv(children[id], RowsFor(childRows, id));
    }
  }

  /** Publishing one child under the member collected for it. */
  lemma PublishMemberKeeps(r: Rules, child: Child, rows: Rows)
    requires ChildInv(child, rows) && !child.status.Unpublished?
    requires !child.status.PendingRemoval? ==> ChildReady(r, child.content)
    ensures var m := MemberFor(child);
      var after := PublishMember(child, m);
      && ChildInv(after, if m.action.Remove? then map[] else ChildRowsOf(child.content, m.target))
      && Extends(child, after)
      && 1 <= m.source <= m.target <= after.version
      && (m.action.Remove? <==> m.target !in after.revisions)
      && (m.action.Publish? ==> m.target !in child.revisions)
  {
    if !child.status.PendingRemoval? {
      CompleteRowsAreUniform(ChildRowsOf(child.content, MemberFor(child).target), MemberFor(child).target);
    }
  }

  /** Publishing changes no content, and records it. */
  lemma PublishedAreUnique(children: map<Id, Child>, childRows: map<Id, Rows>)
    requires ChildrenInv(children, childRows)
    ensures var items := CollectItems(children);
      VideosUnique(PublishMembers(children, items)) && RecordsDistinct(PublishMembers(children, items), items)
  {
    hide ChildInv, CollectItems, OnRecord, Record, PublishMember, SameVideo;
    var items := CollectItems(children);
    var after := PublishMembers(children, items);
    forall id | id in children ensures after[id].content == children[id].content { PublishMemberKeepsContent(children, items, id); }
    forall id | OnRecord(after, items, id) ensures id in children && Record(after, items, id) == children[id].content {
      RecordIsContent(children, childRows, id);
    }
  }

  lemma PublishMemberKeepsContent(children: map<Id, Child>, items: map<Id, Member>, id: Id)
    requires id in children
    ensures PublishMembers(children, items)[id].content == children[id].content
  {
  }

  lemma RecordIsContent(children: map<Id, Child>, childRows: map<Id, Rows>, id: Id)
    requires ChildrenInv(children, childRows)
    ensures var items := CollectItems(children);
      var after := PublishMembers(children, items);
      OnRecord(after, items, id) ==> id in children && Record(after, items, id) == children[id].content
  {
    hide VideosUnique;
    if id in children { assert ChildInv(children[id], RowsFor(childRows, id)); }
  }

  lemma PublishMembersKeeps(r: Rules, children: map<Id, Child>, childRows: map<Id, Rows>)
    requires ChildrenInv(children, childRows) && AllReady(r, children)
    ensures var items := CollectItems(children);
      var after := PublishMembers(children, items);
      && !RevisionClash(children, items)
      && ChildrenInv(after, MemberRows(children, items))
      && (forall id | id in children :: Extends(children[id], after[id]))
      && (forall id | id in items :: 1 <= items[id].source <= items[id].target && MemberInv(after, id, items[id], ManifestPublished))
      && RecordsDistinct(after, items)
  {
    hide VideosUnique, RecordsDistinct, ChildInv, MemberInv, Extends, MemberFor, PublishMember;
    PublishedAreUnique(children, childRows);
    forall id | id in children { PublishOneKeeps(r, children, childRows, id); }
    PublishedRowsExist(r, children);
  }

  lemma PublishOneKeeps(r: Rules, children: map<Id, Child>, childRows: map<Id, Rows>, id: Id)
    requires ChildrenInv(children, childRows) && AllReady(r, children) && id in children
    ensures var items := CollectItems(children);
      var after := PublishMembers(children, items);
      && ChildInv(after[id], RowsFor(MemberRows(children, items), id)) && Extends(children[id], after[id])
      && (id in items ==>
            && 1 <= items[id].source <= items[id].target
            && MemberInv(after, id, items[id], ManifestPublished)
            && (items[id].action.Publish? ==> items[id].target !in children[id].revisions))
  {
    hide VideosUnique;
    if id in CollectItems(children) { PublishMemberKeeps(r, children[id], RowsFor(childRows, id)); }
  }

  lemma PublishedRowsExist(r: Rules, children: map<Id, Child>)
    requires AllReady(r, children)
    ensures forall id | id in MemberRows(children, CollectItems(children)) :: MemberRows(children, CollectItems(children))[id] != map[]
  {
    forall id | id in MemberRows(children, CollectItems(children)) ensures MemberRows(children, CollectItems(children))[id] != map[] {
      assert ChildReady(r, children[id].content);
      assert ZhHant in MemberRows(children, CollectItems(children))[id];
    }
  }

  /** The tables after `m` went live, apart from the outbox. */
  lemma GoLiveKeeps(r: Rules, db: Db, m: Manifest, live: Option<Banner>)
    requires PageInv(r, db.page, db.pageRows) && PageReady(r, db.page.content)
    requires ChildrenInv(db.children, db.childRows) && AllReady(r, db.children)
    requires forall v | v in db.manifests && v != m.target ::
               ManifestInv(r, db.page, db.children, v, db.manifests[v]) && !db.manifests[v].status.ManifestPending?
    requires m.items == CollectItems(db.children)
    requires 1 <= m.source <= m.target && db.page.version <= m.target && m.target !in db.page.revisions
    ensures ValidManifest(m) && GoLive(r, db, m, live).Ok?
    ensures var after := GoLive(r, db, m, live).value;
      && PageInv(r, after.page, after.pageRows)
      && ChildrenInv(after.children, after.childRows)
      && ManifestsInv(r, after.page, after.children, db.manifests[m.target := ManifestRow(m, r.digest(m), ManifestPublished)])
  {
    hide GoLive, PageInv, ChildrenInv, ChildInv, MemberInv, RecordsDistinct, PublishMembers, MemberRows, PageRowsOf,
      CollectItems, PageReady, AllReady, RevisionClash, ManifestInv, NamedExtend;
    PublishMembersKeeps(r, db.children, db.childRows);
    GoneLive(r, db, m, live);
    LivePage(r, db.page, db.pageRows, m.target, live);
    var after := GoLive(r, db, m, live).value;
    PublishedPageGrows(r, db.page, db.pageRows, after.page, m.target);
    PublishKeepsKeys(db.children, m.items);
    PublishedExtend(db.manifests, db.children, after.children);
    forall v | v in db.manifests && v != m.target
      ensures ManifestInv(r, after.page, after.children, v, db.manifests[v])
    {
      ManifestKept(r, db, after.page, after.children, v);
    }
    PublishedManifest(r, after.page, after.children, m);
  }

  lemma PublishedPageGrows(r: Rules, page: Page, rows: Rows, after: Page, v: Version)
    requires PageInv(r, page, rows) && page.version <= v && v !in page.revisions
    requires after.version == v && after.revisions == page.revisions[v := page.content]
    ensures PageGrows(page, after)
  {
  }

  lemma PublishKeepsKeys(children: map<Id, Child>, items: map<Id, Member>)
    ensures PublishMembers(children, items).Keys == children.Keys
  {
  }

  lemma PublishedExtend(manifests: map<Version, ManifestRow>, before: map<Id, Child>, after: map<Id, Child>)
    requires after.Keys == before.Keys && forall id | id in before :: Extends(before[id], after[id])
    ensures NamedExtend(manifests, before, after)
  {
  }

  lemma PublishedManifest(r: Rules, page: Page, children: map<Id, Child>, m: Manifest)
    requires page.version == m.target && m.target in page.revisions && ValidManifest(m) && RecordsDistinct(children, m.items)
    requires forall id | id in m.items :: MemberInv(children, id, m.items[id], ManifestPublished)
    ensures ManifestInv(r, page, children, m.target, ManifestRow(m, r.digest(m), ManifestPublished))
  {
  }

  /** What going live stores, when nothing clashes. */
  lemma GoneLive(r: Rules, db: Db, m: Manifest, live: Option<Banner>)
    requires !RevisionClash(db.children, m.items) && m.target !in db.page.revisions
    ensures GoLive(r, db, m, live).Ok?
    ensures var after := GoLive(r, db, m, live).value;
      && after.page == Page(m.target, Published, db.page.content, live, db.page.revisions[m.target := db.page.content])
      && after.children == PublishMembers(db.children, m.items)
      && after.pageRows == PageRowsOf(r, db.page.content, m.target)
      && after.childRows == MemberRows(db.children, m.items)
  {
  }

  lemma LivePage(r: Rules, page: Page, rows: Rows, v: Version, live: Option<Banner>)
    requires PageInv(r, page, rows) && PageReady(r, page.content) && page.version <= v
    ensures PageInv(r, Page(v, Published, page.content, live, page.revisions[v := page.content]), PageRowsOf(r, page.content, v))
  {
    CompleteRowsAreUniform(PageRowsOf(r, page.content, v), v);
  }

  /** What a group publication that succeeds went through. */
  lemma PublishGroupSteps(r: Rules, db: Db, expected: Version)
    requires PublishGroup(r, db, expected).Ok?
    ensures !Busy(db.page.status) && PageReady(r, db.page.content) && CaptureBaseline(r, db).Ok?
    ensures var based := CaptureBaseline(r, db).value;
      var m := Manifest(based.page.version, expected + 1, CollectItems(based.children));
      var recorded := based.(manifests := based.manifests[m.target := ManifestRow(m, r.digest(m), ManifestPublished)]);
      && based == db.(manifests := based.manifests)
      && db.page.version == expected
      && AllReady(r, based.children) && ValidManifest(m) && m.target !in based.manifests
      && GoLive(r, recorded, m, recorded.page.live).Ok?
      && PublishGroup(r, db, expected).value == RetireBanner(r, GoLive(r, recorded, m, recorded.page.live).value)
  {
    hide GoLive, RetireBanner, CollectItems, BaselineItems, MixedVersions;
  }

  lemma PublishGroupKeeps(r: Rules, db: Db, expected: Version)
    requires Inv(r, db) && PublishGroup(r, db, expected).Ok?
    ensures Inv(r, PublishGroup(r, db, expected).value)
  {
    hide Inv, PublishGroup, CaptureBaseline, GoLive, RetireBanner, CollectItems;
    BaselineKeeps(r, db);
    PublishGroupSteps(r, db, expected);
    var based := CaptureBaseline(r, db).value;
    var m := Manifest(based.page.version, expected + 1, CollectItems(based.children));
    GoLiveGroupKeeps(r, based, m);
    var recorded := based.(manifests := based.manifests[m.target := ManifestRow(m, r.digest(m), ManifestPublished)]);
    RetireBannerKeeps(r, GoLive(r, recorded, m, recorded.page.live).value);
  }

  lemma GoLiveGroupKeeps(r: Rules, db: Db, m: Manifest)
    requires Inv(r, db) && !Busy(db.page.status) && PageReady(r, db.page.content) && AllReady(r, db.children)
    requires m == Manifest(db.page.version, db.page.version + 1, CollectItems(db.children)) && m.target !in db.manifests
    ensures var recorded := db.(manifests := db.manifests[m.target := ManifestRow(m, r.digest(m), ManifestPublished)]);
      var live := GoLive(r, recorded, m, recorded.page.live);
      live.Ok? ==> Inv(r, live.value) && !live.value.page.status.Publishing?
  {
    var row := ManifestRow(m, r.digest(m), ManifestPublished);
    var recorded := db.(manifests := db.manifests[m.target := row]);
    var live := GoLive(r, recorded, m, recorded.page.live);
    if live.Ok? {
      IdleManifests(r, db);
      NewVersionIsNew(r, db);
      GoLiveKeeps(r, db, m, db.page.live);
      GoLiveIgnoresManifests(r, db, recorded.manifests, m, db.page.live);
      EventsKept(db, live.value.page, m, row);
      hide PageInv, ChildrenInv, ManifestsInv, EventsInv, GrantInv, CollectItems;
    }
  }

  lemma NewVersionIsNew(r: Rules, db: Db)
    requires Inv(r, db)
    ensures db.page.version + 1 !in db.page.revisions && 1 <= db.page.version
  {
  }

  lemma IdleManifests(r: Rules, db: Db)
    requires Inv(r, db) && !db.page.status.Publishing?
    ensures forall v | v in db.manifests ::
      ManifestInv(r, db.page, db.children, v, db.manifests[v]) && !db.manifests[v].status.ManifestPending?
  {
    forall v | v in db.manifests
      ensures ManifestInv(r, db.page, db.children, v, db.manifests[v]) && !db.manifests[v].status.ManifestPending?
    {
      assert ManifestInv(r, db.page, db.children, v, db.manifests[v]);
    }
  }

  lemma GoLiveIgnoresManifests(r: Rules, db: Db, manifests: map<Version, ManifestRow>, m: Manifest, live: Option<Banner>)
    ensures var gone, same := GoLive(r, db, m, live), GoLive(r, db.(manifests := manifests), m, live);
      && gone.Ok? == same.Ok?
      && (gone.Ok? ==> same.value == gone.value.(manifests := manifests))
      && (gone.Ok? ==> gone.value.page.version == m.target && gone.value.page.status.Published? && gone.value.page.live == live)
      && (gone.Ok? ==> gone.value.outbox == db.outbox && gone.value.manifests == db.manifests)
  {
  }

  /** Retiring the recorded banner moves its grant from the page to the outbox. */
  lemma RetireBannerKeeps(r: Rules, db: Db)
    requires Inv(r, db) && !db.page.status.Publishing?
    ensures Inv(r, RetireBanner(r, db))
  {
    var after := RetireBanner(r, db);
    if r.kind.Home? && db.page.live.Some? {
      RetireKeepsGrants(db.page.live, None, db.outbox);
      forall v | v in after.manifests ensures ManifestInv(r, after.page, after.children, v, after.manifests[v]) {
        assert ManifestInv(r, db.page, db.children, v, db.manifests[v]);
      }
      forall v | PublishKey(v) in after.outbox ensures PublishEventInv(after.page, after.manifests, v, after.outbox[PublishKey(v)]) {
        assert PublishEventInv(db.page, db.manifests, v, db.outbox[PublishKey(v)]);
      }
    }
  }

  /** A recorded grant gives way to nothing, or to another delivered one not yet revoked. */
  lemma RetireKeepsGrants(previous: Option<Banner>, next: Option<Banner>, outbox: map<EventKey, Event>)
    requires previous.Some? && GrantInv(previous, outbox) && next.None?
    ensures GrantInv(next, EnqueueRevoke(outbox, previous.value))
  {
    var after := EnqueueRevoke(outbox, previous.value);
    forall g ensures DeliveredAt(after, g) == DeliveredAt(outbox, g) && FailedAt(after, g) == FailedAt(outbox, g) {}
  }

  /** A manifest added at a version no manifest of an idle page has yet. */
  lemma ManifestAdded(r: Rules, db: Db, page: Page, children: map<Id, Child>, m: Manifest, status: ManifestStatus)
    requires ManifestsInv(r, db.page, db.children, db.manifests) && !db.page.status.Publishing?
    requires PageGrows(db.page, page) && NamedExtend(db.manifests, db.children, children)
    requires m.target !in db.manifests && ManifestInv(r, page, children, m.target, ManifestRow(m, r.digest(m), status))
    ensures ManifestsInv(r, page, children, db.manifests[m.target := ManifestRow(m, r.digest(m), status)])
  {
    forall v | v in db.manifests ensures ManifestInv(r, page, children, v, db.manifests[v]) {
      assert ManifestInv(r, db.page, db.children, v, db.manifests[v]);
      ManifestKept(r, db, page, children, v);
    }
  }

  /** Settled events do not mind a newer page or a further manifest. */
  lemma EventsKept(db: Db, page: Page, m: Manifest, row: ManifestRow)
    requires EventsInv(db.page, db.manifests, db.outbox) && !db.page.status.Publishing?
    requires db.page.version <= page.version && m.target !in db.manifests
    ensures EventsInv(page, db.manifests[m.target := row], db.outbox)
  {
    forall v | PublishKey(v) in db.outbox
      ensures PublishEventInv(page, db.manifests[m.target := row], v, db.outbox[PublishKey(v)])
    {
      assert PublishEventInv(db.page, db.manifests, v, db.outbox[PublishKey(v)]);
    }
  }

  lemma FreezeKeeps(r: Rules, db: Db, m: Manifest)
    requires Inv(r, db) && !db.page.status.Publishing?
    requires r.kind.Home? && db.page.content.template.HomeV2? && PageReady(r, db.page.content) && AllReady(r, db.children)
    requires m == Manifest(db.page.version, db.page.version + 1, CollectItems(db.children)) && ValidManifest(m)
    requires m.target !in db.manifests && PublishKey(m.target) !in db.outbox
    ensures Inv(r, Freeze(r, db.(manifests := db.manifests[m.target := ManifestRow(m, r.digest(m), ManifestPending)]), m))
  {
    hide PageInv, ChildrenInv, GrantInv, CollectItems, ManifestsInv, EventsInv;
    var row := ManifestRow(m, r.digest(m), ManifestPending);
    var after := Freeze(r, db.(manifests := db.manifests[m.target := row]), m);
    PendingMembers(db.children);
    NewVersionIsNew(r, db);
    ManifestAdded(r, db, after.page, db.children, m, ManifestPending);
    EventsKept(db, after.page, m, row);
    PublishEventQueuedKeepsGrants(db.page.live, db.outbox, m.target, after.outbox[PublishKey(m.target)]);
    PublishingPage(r, db.page, db.pageRows);
    QueuedKeepsEvents(after.page, after.manifests, db.outbox, m.target, after.outbox[PublishKey(m.target)]);
  }

  lemma PendingMembers(children: map<Id, Child>)
    ensures forall id | id in CollectItems(children) :: MemberInv(children, id, CollectItems(children)[id], ManifestPending)
  {
  }

  lemma QueuedKeepsEvents(page: Page, manifests: map<Version, ManifestRow>, outbox: map<EventKey, Event>, v: Version, event: Event)
    requires EventsInv(page, manifests, outbox) && PublishEventInv(page, manifests, v, event)
    ensures EventsInv(page, manifests, outbox[PublishKey(v) := event])
  {
  }

  lemma StartHomePublishKeeps(r: Rules, db: Db, expected: Version)
    requires Inv(r, db) && StartHomePublish(r, db, expected).Ok?
    ensures Inv(r, StartHomePublish(r, db, expected).value)
  {
    hide Inv, CaptureBaseline, CollectItems, PageReady;
    BaselineKeeps(r, db);
    var based := CaptureBaseline(r, db).value;
    BaselineAddsManifests(r, db);
    FreezeKeeps(r, based, Collect(r, based, expected + 1).value);
  }

  lemma BaselineAddsManifests(r: Rules, db: Db)
    requires CaptureBaseline(r, db).Ok?
    ensures var based := CaptureBaseline(r, db).value; based == db.(manifests := based.manifests)
  {
    hide BaselineItems, MixedVersions;
  }

  lemma PublishingPage(r: Rules, page: Page, rows: Rows)
    requires PageInv(r, page, rows)
    ensures PageInv(r, page.(status := Publishing, version := page.version + 1), rows)
  {
    if rows != map[] { CompleteRowsAreUniform(rows, VersionOf(rows)); }
  }

  lemma PublishEventQueuedKeepsGrants(live: Option<Banner>, outbox: map<EventKey, Event>, v: Version, event: Event)
    requires GrantInv(live, outbox) && PublishKey(v) !in outbox && LiveEvent(event)
    ensures GrantInv(live, outbox[PublishKey(v) := event])
  {
    var after := outbox[PublishKey(v) := event];
    forall g ensures DeliveredAt(after, g) == DeliveredAt(outbox, g) && FailedAt(after, g) == FailedAt(outbox, g) {}
  }

  /** While Home is publishing, no child of it can be created, edited or deleted, and the page
      can be neither edited, published, unpublished nor restored. */
  lemma FrozenRejectsEdits(r: Rules, db: Db, id: Id, expected: Version, content: Content, page: PageContent, revision: Version)
    requires Inv(r, db) && db.page.status.Publishing?
    ensures CreateChild(db, id, content).Err? && UpdateChild(db, id, expected, content).Err? && DeleteChild(db, id, expected).Err?
    ensures UpdatePage(db, expected, page).Err? && RestoreGroup(r, db, revision, expected).Err?
    ensures PublishGroup(r, db, expected).Err? && StartHomePublish(r, db, expected).Err? && UnpublishGroup(r, db, expected).Err?
  {
  }

  /** A fresh collection passes the checks a completion makes on its members. */
  lemma CollectedIsCurrent(children: map<Id, Child>, childRows: map<Id, Rows>)
    requires ChildrenInv(children, childRows)
    ensures MembersCurrent(children, CollectItems(children))
  {
    forall id | id in CollectItems(children)
      ensures MemberCurrent(children[id], CollectItems(children)[id])
    {
      assert ChildInv(children[id], RowsFor(childRows, id));
    }
  }

  /** Completion never finds the manifest stale: while Home is publishing, completing the event
      of its version with the grant created for that version succeeds. */
  lemma CompletionIsNeverStale(r: Rules, db: Db)
    requires Inv(r, db) && db.page.status.Publishing?
    ensures var v := db.page.version;
      var done := CompleteHomePublish(r, db, v, v);
      && done.Ok?
      && done.value.page.status.Published?
      && done.value.page.version == v
      && done.value.outbox[PublishKey(v)].status.Delivered?
      && done.value.page.live == Some(Banner(db.page.content.banner, v, v))
  {
    hide Inv, PageInv, ChildrenInv, ManifestInv, GrantInv, MembersCurrent, CollectItems, LoadPending, GoLive,
      PageReady, AllReady, Frozen;
    var v := db.page.version;
    var banner := Some(Banner(db.page.content.banner, v, v));
    InvParts(r, db);
    FrozenEvent(r, db);
    CollectedIsCurrent(db.children, db.childRows);
    FrozenManifest(r, db);
    FrozenLoads(r, db);
    GoLiveKeeps(r, db, db.manifests[v].manifest, banner);
    GoLiveIgnoresManifests(r, db, db.manifests, db.manifests[v].manifest, banner);
  }

  lemma FrozenEvent(r: Rules, db: Db)
    requires Frozen(r, db)
    ensures var v := db.page.version;
      && db.page.content.template.HomeV2? && v in db.manifests && PublishKey(v) in db.outbox && LiveEvent(db.outbox[PublishKey(v)])
      && db.outbox[PublishKey(v)].payload == PublishPayload(db.page.content.banner, Some(db.manifests[v].sha), v)
  {
  }

  /** The pending manifest of a publishing Home is the only one, and loads. */
  lemma FrozenManifest(r: Rules, db: Db)
    requires Inv(r, db) && db.page.status.Publishing?
    ensures var v := db.page.version;
      && v in db.manifests
      && LoadPending(r, db, v, Some(db.manifests[v].sha)) == Ok(db.manifests[v].manifest)
      && (forall w | w in db.manifests && w != v :: !db.manifests[w].status.ManifestPending?)
      && 1 <= db.manifests[v].manifest.source <= v
  {
    var v := db.page.version;
    assert ManifestInv(r, db.page, db.children, v, db.manifests[v]);
    forall w | w in db.manifests && w != v ensures !db.manifests[w].status.ManifestPending? {
      assert ManifestInv(r, db.page, db.children, w, db.manifests[w]);
    }
  }

  /** What a completion that is not a repetition does. */
  lemma CompletionSteps(r: Rules, db: Db, v: Version)
    requires CompleteHomePublish(r, db, v, v).Ok? && !DeliveredAt(db.outbox, v)
    ensures PublishKey(v) in db.outbox && db.page.status.Publishing? && db.page.version in db.manifests
    ensures db.outbox[PublishKey(v)].payload.PublishPayload? && db.outbox[PublishKey(v)].payload.version == db.page.version
    ensures var m := db.manifests[db.page.version].manifest;
      var live := Some(Banner(db.page.content.banner, v, db.page.version));
      && GoLive(r, db, m, live).Ok?
      && CompleteHomePublish(r, db, v, v).value == GoLive(r, db, m, live).value.(
           manifests := db.manifests[db.page.version := db.manifests[db.page.version].(status := ManifestPublished)],
           outbox := DeliveredOutbox(db.page.live, db.outbox, v))
  {
    hide GoLive;
    GoLiveIgnoresManifests(r, db, db.manifests, db.manifests[db.page.version].manifest, Some(Banner(db.page.content.banner, v, db.page.version)));
  }

  lemma CompleteHomePublishKeeps(r: Rules, db: Db, v: Version)
    requires Inv(r, db) && CompleteHomePublish(r, db, v, v).Ok?
    ensures Inv(r, CompleteHomePublish(r, db, v, v).value)
  {
    if DeliveredAt(db.outbox, v) {
      RepeatedCompletion(r, db, v);
    } else {
      hide Inv, GoLive, CompleteHomePublish;
      CompletionSteps(r, db, v);
      PublishEventAt(r, db, v);
      CompletedKeeps(r, db, v);
    }
  }

  lemma RepeatedCompletion(r: Rules, db: Db, v: Version)
    requires CompleteHomePublish(r, db, v, v).Ok? && DeliveredAt(db.outbox, v)
    ensures CompleteHomePublish(r, db, v, v).value == db
  {
  }

  lemma PublishEventAt(r: Rules, db: Db, v: Version)
    requires Inv(r, db) && PublishKey(v) in db.outbox
    ensures PublishEventInv(db.page, db.manifests, v, db.outbox[PublishKey(v)])
  {
  }

  lemma CompletedKeeps(r: Rules, db: Db, v: Version)
    requires Inv(r, db) && db.page.status.Publishing? && db.page.version == v && v in db.manifests && PublishKey(v) in db.outbox
    requires GoLive(r, db, db.manifests[v].manifest, Some(Banner(db.page.content.banner, v, v))).Ok?
    ensures var live := GoLive(r, db, db.manifests[v].manifest, Some(Banner(db.page.content.banner, v, v))).value;
      Inv(r, live.(manifests := db.manifests[v := db.manifests[v].(status := ManifestPublished)],
                   outbox := DeliveredOutbox(db.page.live, db.outbox, v)))
  {
    var m := db.manifests[v].manifest;
    var banner := Banner(db.page.content.banner, v, v);
    var live := GoLive(r, db, m, Some(banner)).value;
    FrozenManifest(r, db);
    FrozenLoads(r, db);
    GoLiveKeeps(r, db, m, Some(banner));
    GoLiveIgnoresManifests(r, db, db.manifests, m, Some(banner));
    DeliveryKeepsGrants(db.page.live, db.outbox, v, banner);
    DeliveryKeepsEvents(db, live.page, v);
    hide PageInv, ChildrenInv, EventsInv, GrantInv, GoLive, DeliveredOutbox, ManifestsInv;
    assert db.manifests[v := db.manifests[v].(status := ManifestPublished)] ==
           db.manifests[m.target := ManifestRow(m, r.digest(m), ManifestPublished)];
  }

  lemma FrozenLoads(r: Rules, db: Db)
    requires Inv(r, db) && db.page.status.Publishing?
    ensures var v := db.page.version;
      && r.kind.Home? && v in db.manifests && v !in db.page.revisions && PublishKey(v) in db.outbox
      && db.manifests[v].manifest.target == v && db.manifests[v].sha == r.digest(db.manifests[v].manifest)
      && db.manifests[v].manifest.items == CollectItems(db.children)
      && LiveEvent(db.outbox[PublishKey(v)])
      && PageReady(r, db.page.content) && AllReady(r, db.children)
      && forall w | w in db.manifests && w != v ::
           ManifestInv(r, db.page, db.children, w, db.manifests[w]) && !db.manifests[w].status.ManifestPending?
  {
    FrozenManifest(r, db);
    assert ManifestInv(r, db.page, db.children, db.page.version, db.manifests[db.page.version]);
  }

  lemma DeliveryKeepsEvents(db: Db, page: Page, v: Version)
    requires EventsInv(db.page, db.manifests, db.outbox) && db.page.version == v == page.version
    requires v in db.manifests && PublishKey(v) in db.outbox
    requires forall w | w in db.manifests && w != v :: !db.manifests[w].status.ManifestPending?
    requires db.manifests[v].status.ManifestPending?
    ensures EventsInv(page, db.manifests[v := db.manifests[v].(status := ManifestPublished)], DeliveredOutbox(db.page.live, db.outbox, v))
  {
    var outbox := DeliveredOutbox(db.page.live, db.outbox, v);
    var manifests := db.manifests[v := db.manifests[v].(status := ManifestPublished)];
    forall w | PublishKey(w) in outbox ensures PublishEventInv(page, manifests, w, outbox[PublishKey(w)]) {
      assert PublishEventInv(db.page, db.manifests, w, db.outbox[PublishKey(w)]);
    }
  }

  function DeliveredOutbox(live: Option<Banner>, outbox: map<EventKey, Event>, v: Version): map<EventKey, Event>
    requires PublishKey(v) in outbox
  {
    var delivered := outbox[PublishKey(v) := outbox[PublishKey(v)].(status := Delivered)];
    if live.Some? && live.value.grant != v then EnqueueRevoke(delivered, live.value) else delivered
  }

  lemma DeliveryKeepsGrants(live: Option<Banner>, outbox: map<EventKey, Event>, v: Version, banner: Banner)
    requires GrantInv(live, outbox) && PublishKey(v) in outbox && LiveEvent(outbox[PublishKey(v)]) && banner.grant == v
    ensures GrantInv(Some(banner), DeliveredOutbox(live, outbox, v))
  {
    var after := DeliveredOutbox(live, outbox, v);
    assert !DeliveredAt(outbox, v);
    forall g ensures DeliveredAt(after, g) == (DeliveredAt(outbox, g) || g == v) && FailedAt(after, g) == FailedAt(outbox, g) {}
  }

  // ---------------------------------------------------------------- unpublishing

  lemma WithdrawMemberKeeps(child: Child, rows: Rows)
    requires ChildInv(child, rows)
    ensures ChildInv(if rows != map[] then Withdrawn(child) else child, map[])
    ensures Extends(child, if rows != map[] then Withdrawn(child) else child)
  {
  }

  lemma WithdrawnAreUnique(children: map<Id, Child>, items: map<Id, Member>)
    requires VideosUnique(children)
    requires forall id | id in items :: id in children && items[id].target == children[id].version + 1
    ensures var after := WithdrawMembers(children, items); VideosUnique(after) && RecordsDistinct(after, items)
  {
    var after := WithdrawMembers(children, items);
    forall id | id in children ensures after[id].content == children[id].content {}
    forall id | OnRecord(after, items, id) ensures Record(after, items, id) == children[id].content {}
  }

  lemma WithdrawChildrenKeep(children: map<Id, Child>, childRows: map<Id, Rows>, after: map<Id, Child>)
    requires ChildrenInv(children, childRows)
    requires after == WithdrawMembers(children, WithdrawItems(children, childRows))
    ensures ChildrenInv(after, map[])
    ensures forall id | id in children :: Extends(children[id], after[id])
    ensures RecordsDistinct(after, WithdrawItems(children, childRows))
  {
    WithdrawnAreUnique(children, WithdrawItems(children, childRows));
    var none: map<Id, Rows> := map[];
    forall id | id in children
      ensures ChildInv(after[id], RowsFor(none, id)) && Extends(children[id], after[id])
    {
      WithdrawMemberKeeps(children[id], RowsFor(childRows, id));
    }
  }

  lemma WithdrawItemsKeep(children: map<Id, Child>, childRows: map<Id, Rows>, items: map<Id, Member>)
    requires forall id | id in children :: 1 <= children[id].version
    requires items == WithdrawItems(children, childRows)
    ensures forall id | id in items ::
              && 1 <= items[id].source <= items[id].target
              && MemberInv(WithdrawMembers(children, items), id, items[id], ManifestUnpublished)
  {
  }

  lemma HideKeeps(r: Rules, db: Db, m: Manifest, page: Page)
    requires Inv(r, db) && !db.page.status.Publishing?
    requires m == Manifest(db.page.version, db.page.version + 1, WithdrawItems(db.children, db.childRows)) && m.target !in db.manifests
    requires RevisedPage(db.page, Unpublished, db.page.content) == Ok(page)
    ensures Inv(r, Hide(db.(manifests := db.manifests[m.target := ManifestRow(m, r.digest(m), ManifestUnpublished)]), page, m.items))
  {
    HiddenPage(r, db.page, db.pageRows, page);
    ChildVersions(db.children, db.childRows);
    hide PageInv, ChildrenInv, ManifestsInv, EventsInv, GrantInv, WithdrawMembers, WithdrawItems;
    WithdrawChildrenKeep(db.children, db.childRows, WithdrawMembers(db.children, m.items));
    WithdrawItemsKeep(db.children, db.childRows, m.items);
    ManifestAdded(r, db, page, WithdrawMembers(db.children, m.items), m, ManifestUnpublished);
    EventsKept(db, page, m, ManifestRow(m, r.digest(m), ManifestUnpublished));
  }

  lemma HiddenPage(r: Rules, page: Page, rows: Rows, hidden: Page)
    requires PageInv(r, page, rows) && RevisedPage(page, Unpublished, page.content) == Ok(hidden)
    ensures PageInv(r, hidden, map[]) && PageGrows(page, hidden) && 1 <= page.version
    ensures hidden.version == page.version + 1 && hidden.version in hidden.revisions
  {
  }

  lemma ChildVersions(children: map<Id, Child>, childRows: map<Id, Rows>)
    requires ChildrenInv(children, childRows)
    ensures forall id | id in children :: 1 <= children[id].version
  {
    forall id | id in children ensures 1 <= children[id].version { assert ChildInv(children[id], RowsFor(childRows, id)); }
  }

  lemma HideAndRetireKeeps(r: Rules, db: Db, m: Manifest, page: Page)
    requires Inv(r, db) && !db.page.status.Publishing?
    requires m == Manifest(db.page.version, db.page.version + 1, WithdrawItems(db.children, db.childRows)) && m.target !in db.manifests
    requires RevisedPage(db.page, Unpublished, db.page.content) == Ok(page)
    ensures var recorded := db.(manifests := db.manifests[m.target := ManifestRow(m, r.digest(m), ManifestUnpublished)]);
      Inv(r, RetireBanner(r, Hide(recorded, page, m.items)))
  {
    HideKeeps(r, db, m, page);
    RetireBannerKeeps(r, Hide(db.(manifests := db.manifests[m.target := ManifestRow(m, r.digest(m), ManifestUnpublished)]), page, m.items));
  }

  lemma WithdrawSteps(r: Rules, db: Db, m: Manifest, recorded: Db)
    requires Withdraw(r, db).Ok?
    requires m == Manifest(db.page.version, db.page.version + 1, WithdrawItems(db.children, db.childRows))
    requires recorded == db.(manifests := db.manifests[m.target := ManifestRow(m, r.digest(m), ManifestUnpublished)])
    ensures m.target !in db.manifests
    ensures var page := RevisedPage(db.page, Unpublished, db.page.content);
      page.Ok? && Withdraw(r, db).value == RetireBanner(r, Hide(recorded, page.value, m.items))
  {
  }

  lemma WithdrawKeepsGroup(r: Rules, db: Db)
    requires Inv(r, db) && !db.page.status.Publishing? && Withdraw(r, db).Ok?
    ensures Inv(r, Withdraw(r, db).value)
  {
    var m := Manifest(db.page.version, db.page.version + 1, WithdrawItems(db.children, db.childRows));
    WithdrawSteps(r, db, m, db.(manifests := db.manifests[m.target := ManifestRow(m, r.digest(m), ManifestUnpublished)]));
    HideAndRetireKeeps(r, db, m, RevisedPage(db.page, Unpublished, db.page.content).value);
  }

  lemma UnpublishGroupKeeps(r: Rules, db: Db, expected: Version)
    requires Inv(r, db) && UnpublishGroup(r, db, expected).Ok?
    ensures Inv(r, UnpublishGroup(r, db, expected).value)
  {
    hide Inv, CaptureBaseline, Withdraw;
    BaselineKeeps(r, db);
    BaselineAddsManifests(r, db);
    WithdrawKeepsGroup(r, CaptureBaseline(r, db).value);
  }

  // ---------------------------------------------------------------- failing

  lemma FailPublicationKeeps(r: Rules, db: Db, v: Version)
    requires Inv(r, db) && FailPublication(db, v).Ok? && LiveEvent(db.outbox[PublishKey(v)])
    ensures Inv(r, FailPublication(db, v).value)
  {
    var after := FailPublication(db, v).value;
    assert PublishEventInv(db.page, db.manifests, v, db.outbox[PublishKey(v)]);
    FrozenManifest(r, db);
    forall w | w in after.manifests ensures ManifestInv(r, after.page, after.children, w, after.manifests[w]) {
      assert ManifestInv(r, db.page, db.children, w, db.manifests[w]);
      if w == v {
        forall id | id in after.manifests[w].manifest.items
          ensures MemberInv(after.children, id, after.manifests[w].manifest.items[id], ManifestFailed)
        {
          assert MemberInv(db.children, id, db.manifests[w].manifest.items[id], ManifestPending);
        }
      } else {
        ManifestKept(r, db, after.page, after.children, w);
      }
    }
    forall w | PublishKey(w) in after.outbox ensures PublishEventInv(after.page, after.manifests, w, after.outbox[PublishKey(w)]) {
      assert PublishEventInv(db.page, db.manifests, w, db.outbox[PublishKey(w)]);
    }
    FailureKeepsGrants(db.page.live, db.outbox, v);
    assert PageInv(r, after.page, after.pageRows) by {
      if db.pageRows != map[] { CompleteRowsAreUniform(db.pageRows, VersionOf(db.pageRows)); }
    }
  }

  lemma FailureKeepsGrants(live: Option<Banner>, outbox: map<EventKey, Event>, v: Version)
    requires GrantInv(live, outbox) && PublishKey(v) in outbox && LiveEvent(outbox[PublishKey(v)])
    ensures GrantInv(live, outbox[PublishKey(v) := outbox[PublishKey(v)].(status := FailedEvent)])
  {
    var after := outbox[PublishKey(v) := outbox[PublishKey(v)].(status := FailedEvent)];
    forall g ensures DeliveredAt(after, g) == DeliveredAt(outbox, g) && FailedAt(after, g) == (FailedAt(outbox, g) || g == v) {}
  }

  lemma CompensationKeepsGrants(live: Option<Banner>, outbox: map<EventKey, Event>, v: Version, asset: string)
    requires GrantInv(live, outbox) && FailedAt(outbox, v)
    ensures GrantInv(live, outbox[CompensateKey(v, v) := Event(Waiting, 0, RevokePayload(asset, v))])
  {
    var after := outbox[CompensateKey(v, v) := Event(Waiting, 0, RevokePayload(asset, v))];
    forall g ensures DeliveredAt(after, g) == DeliveredAt(outbox, g) && FailedAt(after, g) == FailedAt(outbox, g) {}
  }

  lemma FailHomePublishKeeps(r: Rules, db: Db, v: Version)
    requires Inv(r, db) && FailHomePublish(db, v, v).Ok? && LiveEvent(db.outbox[PublishKey(v)])
    ensures Inv(r, FailHomePublish(db, v, v).value)
  {
    hide Inv, GrantInv, FailPublication, FailHomePublish;
    CompensationQueues(db, v);
    FailPublicationKeeps(r, db, v);
    var failed := FailPublication(db, v).value;
    FailureMarks(db, v);
    InvParts(r, failed);
    var asset := db.outbox[PublishKey(v)].payload.asset;
    CompensationKeepsGrants(failed.page.live, failed.outbox, v, asset);
    OutboxChangeKeeps(r, failed, failed.outbox[CompensateKey(v, v) := Event(Waiting, 0, RevokePayload(asset, v))]);
  }

  lemma CompensationQueues(db: Db, v: Version)
    requires FailHomePublish(db, v, v).Ok?
    ensures FailPublication(db, v).Ok? && PublishKey(v) in db.outbox && db.outbox[PublishKey(v)].payload.PublishPayload?
    ensures var failed, after := FailPublication(db, v).value, FailHomePublish(db, v, v).value;
      after == failed || after == failed.(
        outbox := failed.outbox[CompensateKey(v, v) := Event(Waiting, 0, RevokePayload(db.outbox[PublishKey(v)].payload.asset, v))])
  {
    hide FailPublication;
    FailureMarksAny(db, v);
  }

  lemma FailureMarksAny(db: Db, v: Version)
    ensures FailPublication(db, v).Ok? ==> PublishKey(v) in db.outbox && db.outbox[PublishKey(v)].payload.PublishPayload?
  {
  }

  lemma FailureMarks(db: Db, v: Version)
    requires FailPublication(db, v).Ok?
    ensures PublishKey(v) in db.outbox && db.outbox[PublishKey(v)].payload.PublishPayload? && FailedAt(FailPublication(db, v).value.outbox, v)
  {
  }

  /** Changing only events that are not publications, or only how a live event is leased. */
  lemma OutboxChangeKeeps(r: Rules, db: Db, outbox: map<EventKey, Event>)
    requires Inv(r, db) && GrantInv(db.page.live, outbox)
    requires forall v :: PublishKey(v) in outbox <==> PublishKey(v) in db.outbox
    requires forall v | PublishKey(v) in outbox ::
               && outbox[PublishKey(v)].payload == db.outbox[PublishKey(v)].payload
               && (outbox[PublishKey(v)].status == db.outbox[PublishKey(v)].status ||
                   (LiveEvent(outbox[PublishKey(v)]) && LiveEvent(db.outbox[PublishKey(v)])))
    ensures Inv(r, db.(outbox := outbox))
  {
    forall v | PublishKey(v) in outbox ensures PublishEventInv(db.page, db.manifests, v, outbox[PublishKey(v)]) {
      assert PublishEventInv(db.page, db.manifests, v, db.outbox[PublishKey(v)]);
    }
  }

  /** Claim, Retry, Defer and Complete write one status and a lease; the payload stays. */
  lemma EventWriteKeeps(r: Rules, db: Db, key: EventKey, status: EventStatus, attempts: nat)
    requires Inv(r, db) && key in db.outbox
    requires key.PublishKey? ==> LiveEvent(db.outbox[key]) && (status.Waiting? || status.Processing?)
    ensures Inv(r, db.(outbox := db.outbox[key := db.outbox[key].(status := status, attempts := attempts)]))
  {
    EventWriteKeepsGrants(db.page.live, db.outbox, key, status, attempts);
    hide PageInv, ChildrenInv, ManifestsInv, EventsInv, GrantInv, Frozen;
    OutboxChangeKeeps(r, db, db.outbox[key := db.outbox[key].(status := status, attempts := attempts)]);
  }

  lemma EventWriteKeepsGrants(live: Option<Banner>, outbox: map<EventKey, Event>, key: EventKey, status: EventStatus, attempts: nat)
    requires GrantInv(live, outbox) && key in outbox
    requires key.PublishKey? ==> LiveEvent(outbox[key]) && (status.Waiting? || status.Processing?)
    ensures GrantInv(live, outbox[key := outbox[key].(status := status, attempts := attempts)])
  {
    var after := outbox[key := outbox[key].(status := status, attempts := attempts)];
    forall g ensures DeliveredAt(after, g) == DeliveredAt(outbox, g) && FailedAt(after, g) == FailedAt(outbox, g) {}
  }
}
