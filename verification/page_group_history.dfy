/** What a page group remembers: manifests and revisions only accumulate, so a published
    revision can be restored, and publishing after the restore brings back what was live. */
module PageGroupHistory {
  import opened ContentModel
  import opened PageGroup
  import opened PageGroupInvariants

  /** The transactions an administrator can start. */
  datatype Op =
    | OpCreateChild(id: Id, childContent: Content)
    | OpUpdateChild(id: Id, expected: Version, childContent: Content)
    | OpDeleteChild(id: Id, expected: Version)
    | OpUpdatePage(expected: Version, content: PageContent)
    | OpMigrateHome(settings: string, translations: map<Locale, string>)
    | OpPublishGroup(expected: Version)
    | OpStartHomePublish(expected: Version)
    | OpUnpublishGroup(expected: Version)
    | OpRestoreGroup(revision: Version, expected: Version)

  function Apply(r: Rules, db: Db, op: Op): Result<Db> {
    match op
    case OpCreateChild(id, content) => CreateChild(db, id, content)
    case OpUpdateChild(id, expected, content) => UpdateChild(db, id, expected, content)
    case OpDeleteChild(id, expected) => DeleteChild(db, id, expected)
    case OpUpdatePage(expected, content) => UpdatePage(db, expected, content)
    case OpMigrateHome(settings, translations) => MigrateHome(r, db, settings, translations)
    case OpPublishGroup(expected) => PublishGroup(r, db, expected)
    case OpStartHomePublish(expected) => StartHomePublish(r, db, expected)
    case OpUnpublishGroup(expected) => UnpublishGroup(r, db, expected)
    case OpRestoreGroup(revision, expected) => RestoreGroup(r, db, revision, expected)
  }

  lemma ApplyKeeps(r: Rules, db: Db, op: Op)
    requires Inv(r, db) && Apply(r, db, op).Ok?
    ensures Inv(r, Apply(r, db, op).value)
  {
    match op
    case OpCreateChild(id, content) => CreateChildKeeps(r, db, id, content);
    case OpUpdateChild(id, expected, content) => UpdateChildKeeps(r, db, id, expected, content);
    case OpDeleteChild(id, expected) => DeleteChildKeeps(r, db, id, expected);
    case OpUpdatePage(expected, content) => UpdatePageKeeps(r, db, expected, content);
    case OpMigrateHome(settings, translations) => MigrateHomeKeeps(r, db, settings, translations);
    case OpPublishGroup(expected) => PublishGroupKeeps(r, db, expected);
    case OpStartHomePublish(expected) => StartHomePublishKeeps(r, db, expected);
    case OpUnpublishGroup(expected) => UnpublishGroupKeeps(r, db, expected);
    case OpRestoreGroup(revision, expected) => RestoreGroupKeeps(r, db, revision, expected);
  }

  // ---------------------------------------------------------------- growth

  ghost predicate ManifestsGrow(before: map<Version, ManifestRow>, after: map<Version, ManifestRow>) {
    forall v | v in before ::
      && v in after
      && after[v].manifest == before[v].manifest
      && (!before[v].status.ManifestPending? ==> after[v] == before[v])
  }

  /** Nothing recorded is rewritten or lost: page revisions, manifests, and the revisions of
      every child some manifest names. */
  ghost predicate Grows(before: Db, after: Db) {
    && PageGrows(before.page, after.page)
    && ManifestsGrow(before.manifests, after.manifests)
    && NamedExtend(before.manifests, before.children, after.children)
  }

  lemma GrowsTransitive(a: Db, b: Db, c: Db)
    requires Grows(a, b) && Grows(b, c)
    ensures Grows(a, c)
  {
    forall id | id in a.children && NamedByManifest(a.manifests, id)
      ensures id in c.children && Extends(a.children[id], c.children[id])
    {
      var v :| v in a.manifests && id in a.manifests[v].manifest.items;
      assert id in b.manifests[v].manifest.items;
      assert NamedByManifest(b.manifests, id);
    }
  }

  lemma BaselineGrows(r: Rules, db: Db)
    requires CaptureBaseline(r, db).Ok?
    ensures var based := CaptureBaseline(r, db).value;
      Grows(db, based) && based == db.(manifests := based.manifests)
  {
    hide BaselineItems, MixedVersions;
  }

  lemma PublishedChildrenExtend(children: map<Id, Child>)
    requires !RevisionClash(children, CollectItems(children))
    ensures forall id | id in children :: Extends(children[id], PublishMembers(children, CollectItems(children))[id])
  {
  }

  lemma EditGrows(db: Db, op: Op, r: Rules)
    requires op.OpCreateChild? || op.OpUpdateChild? || op.OpDeleteChild? || op.OpUpdatePage? || op.OpMigrateHome?
    requires Apply(r, db, op).Ok?
    ensures Grows(db, Apply(r, db, op).value)
  {
    hide DeleteChild, CreateChild, UpdateChild, NamedByManifest, Extends;
    match op
    case OpCreateChild(id, content) => CreateGrows(db, id, content);
    case OpUpdateChild(id, expected, content) => UpdateGrows(db, id, expected, content);
    case OpDeleteChild(id, expected) => DeleteGrows(db, id, expected);
    case _ => ExtendsItself(db.children);
  }

  lemma CreateGrows(db: Db, id: Id, content: Content)
    requires CreateChild(db, id, content).Ok?
    ensures Grows(db, CreateChild(db, id, content).value)
  {
    hide VideoTaken, NamedByManifest;
  }

  lemma UpdateGrows(db: Db, id: Id, expected: Version, content: Content)
    requires UpdateChild(db, id, expected, content).Ok?
    ensures Grows(db, UpdateChild(db, id, expected, content).value)
  {
    hide VideoTaken, NamedByManifest;
  }

  lemma DeleteGrows(db: Db, id: Id, expected: Version)
    requires DeleteChild(db, id, expected).Ok?
    ensures Grows(db, DeleteChild(db, id, expected).value)
  {
    hide NamedByManifest, HasRows;
    DeletedOrExtended(db, id, expected);
  }

  lemma DeletedOrExtended(db: Db, id: Id, expected: Version)
    requires DeleteChild(db, id, expected).Ok?
    ensures var after := DeleteChild(db, id, expected).value;
      if id in after.children
      then id in db.children && Extends(db.children[id], after.children[id]) && after.children == db.children[id := after.children[id]]
      else !NamedByManifest(db.manifests, id) && after.children == db.children - {id}
  {
    hide NamedByManifest, HasRows;
  }

  lemma PublishGroupGrows(r: Rules, db: Db, expected: Version)
    requires PublishGroup(r, db, expected).Ok?
    ensures Grows(db, PublishGroup(r, db, expected).value)
  {
    hide CaptureBaseline, CollectItems, PublishMembers, MemberRows, Extends, NamedByManifest, PageRowsOf;
    BaselineGrows(r, db);
    PublishGroupSteps(r, db, expected);
    PublishedTables(r, db, expected);
    PublishedChildrenExtend(db.children);
  }

  /** What a group publication makes of pages, children and rows. */
  lemma PublishedTables(r: Rules, db: Db, expected: Version)
    requires PublishGroup(r, db, expected).Ok?
    ensures var after := PublishGroup(r, db, expected).value;
      var items := CollectItems(db.children);
      && !RevisionClash(db.children, items)
      && after.children == PublishMembers(db.children, items) && after.children.Keys == db.children.Keys
      && after.childRows == MemberRows(db.children, items)
      && after.pageRows == PageRowsOf(r, db.page.content, expected + 1)
      && PageGrows(db.page, after.page) && db.page.version == expected
      && expected + 1 in after.page.revisions && after.page.revisions[expected + 1] == db.page.content
      && after.page.status.Published? && after.page.version == expected + 1
      && after.manifests == CaptureBaseline(r, db).value.manifests[expected + 1 := after.manifests[expected + 1]]
      && expected + 1 !in CaptureBaseline(r, db).value.manifests
      && after.manifests[expected + 1].manifest == Manifest(expected, expected + 1, items)
      && after.manifests[expected + 1].status.ManifestPublished?
  {
    hide CaptureBaseline, CollectItems, MemberRows, PageRowsOf, PublishGroup;
    PublishGroupSteps(r, db, expected);
  }

  lemma StartHomePublishGrows(r: Rules, db: Db, expected: Version)
    requires StartHomePublish(r, db, expected).Ok?
    ensures Grows(db, StartHomePublish(r, db, expected).value)
  {
    BaselineGrows(r, db);
  }

  lemma WithdrawGrows(r: Rules, db: Db)
    requires Withdraw(r, db).Ok?
    ensures Grows(db, Withdraw(r, db).value)
  {
    hide WithdrawMembers, WithdrawItems, Extends, NamedByManifest, RetireBanner;
    var items := WithdrawItems(db.children, db.childRows);
    WithdrawItemsAre(db.children, db.childRows);
    WithdrawnExtend(db.children, items);
    WithdrawalTables(r, db);
  }

  lemma WithdrawItemsAre(children: map<Id, Child>, childRows: map<Id, Rows>)
    ensures var items := WithdrawItems(children, childRows);
      forall id | id in items :: id in children && items[id].target == children[id].version + 1
  {
  }

  lemma WithdrawalTables(r: Rules, db: Db)
    requires Withdraw(r, db).Ok?
    ensures var after := Withdraw(r, db).value;
      var items := WithdrawItems(db.children, db.childRows);
      && after.children == WithdrawMembers(db.children, items) && after.children.Keys == db.children.Keys
      && (forall id | id in items :: items[id].target !in db.children[id].revisions)
      && PageGrows(db.page, after.page) && ManifestsGrow(db.manifests, after.manifests)
  {
    hide WithdrawItems;
  }

  lemma WithdrawnExtend(children: map<Id, Child>, items: map<Id, Member>)
    requires forall id | id in items :: id in children && items[id].target == children[id].version + 1
    ensures (forall id | id in items :: items[id].target !in children[id].revisions) ==>
      forall id | id in children :: Extends(children[id], WithdrawMembers(children, items)[id])
  {
    if forall id | id in items :: items[id].target !in children[id].revisions {
      forall id | id in children ensures Extends(children[id], WithdrawMembers(children, items)[id]) {
        if id in items { assert items[id].target !in children[id].revisions; }
      }
    }
  }

  lemma UnpublishGroupGrows(r: Rules, db: Db, expected: Version)
    requires UnpublishGroup(r, db, expected).Ok?
    ensures Grows(db, UnpublishGroup(r, db, expected).value)
  {
    BaselineGrows(r, db);
    var based := CaptureBaseline(r, db).value;
    WithdrawGrows(r, based);
    GrowsTransitive(db, based, Withdraw(r, based).value);
  }

  lemma RestoreGroupGrows(r: Rules, db: Db, revision: Version, expected: Version)
    requires RestoreGroup(r, db, revision, expected).Ok?
    ensures Grows(db, RestoreGroup(r, db, revision, expected).value)
  {
    var after := RestoreGroup(r, db, revision, expected).value;
    forall id | id in db.children ensures Extends(db.children[id], after.children[id]) {
      assert db.children[id].version + 1 !in db.children[id].revisions;
    }
  }

  lemma ApplyGrows(r: Rules, db: Db, op: Op)
    requires Apply(r, db, op).Ok?
    ensures Grows(db, Apply(r, db, op).value)
  {
    match op
    case OpPublishGroup(expected) => PublishGroupGrows(r, db, expected);
    case OpStartHomePublish(expected) => StartHomePublishGrows(r, db, expected);
    case OpUnpublishGroup(expected) => UnpublishGroupGrows(r, db, expected);
    case OpRestoreGroup(revision, expected) => RestoreGroupGrows(r, db, revision, expected);
    case _ => EditGrows(db, op, r);
  }

  lemma CompleteHomePublishGrows(r: Rules, db: Db, v: Version)
    requires Inv(r, db) && CompleteHomePublish(r, db, v, v).Ok?
    ensures Grows(db, CompleteHomePublish(r, db, v, v).value)
  {
    hide Inv, CompleteHomePublish, CollectItems, PublishMembers, MemberRows, PageRowsOf, PageReady, AllReady,
      RevisionClash, Extends, NamedByManifest;
    if DeliveredAt(db.outbox, v) {
      RepeatedCompletion(r, db, v);
      ExtendsItself(db.children);
    } else {
      CompletedTables(r, db, v);
      PublishedChildrenExtend(db.children);
      PublishKeepsKeys(db.children, CollectItems(db.children));
    }
  }

  lemma ExtendsItself(children: map<Id, Child>)
    ensures forall id | id in children :: Extends(children[id], children[id])
  {
  }

  lemma FailPublicationGrows(db: Db, v: Version)
    requires FailPublication(db, v).Ok?
    ensures Grows(db, FailPublication(db, v).value)
  {
  }

  // ---------------------------------------------------------------- the recorded and the live view

  /** What a reader sees of the children, versions and timestamps aside. */
  ghost function LiveChildren(childRows: map<Id, Rows>): map<Id, map<Locale, Payload>> {
    map id | id in childRows :: Visible(childRows[id])
  }

  /** What a manifest with these items says was live: the revision of every member it did not
      remove. */
  ghost function RecordedChildren(children: map<Id, Child>, items: map<Id, Member>): map<Id, map<Locale, Payload>> {
    map id | id in items && !items[id].action.Remove? && id in children && items[id].target in children[id].revisions ::
      Visible(ChildRowsOf(children[id].revisions[items[id].target], items[id].target))
  }

  ghost function RecordedPage(r: Rules, db: Db, v: Version): map<Locale, Payload>
    requires v in db.page.revisions
  {
    Visible(PageRowsOf(r, db.page.revisions[v], v))
  }

  ghost predicate Settled(db: Db, v: Version) {
    && v in db.manifests
    && v in db.page.revisions
    && (db.manifests[v].status.ManifestPublished? || db.manifests[v].status.ManifestUnpublished?)
  }

  /** Live and recorded agree: the group shows exactly revision `v`. */
  ghost predicate Shows(r: Rules, db: Db, v: Version)
    requires v in db.manifests && v in db.page.revisions
  {
    LiveChildren(db.childRows) == RecordedChildren(db.children, db.manifests[v].manifest.items) && Visible(db.pageRows) == RecordedPage(r, db, v)
  }

  lemma VersionsAreInvisible(content: Content, page: PageContent, r: Rules, v: Version, w: Version)
    ensures Visible(ChildRowsOf(content, v)) == Visible(ChildRowsOf(content, w))
    ensures Visible(PageRowsOf(r, page, v)) == Visible(PageRowsOf(r, page, w))
  {
  }

  /** What a settled revision recorded never changes. */
  lemma RecordIsPermanent(r: Rules, before: Db, after: Db, v: Version)
    requires Inv(r, before) && Settled(before, v) && Grows(before, after)
    ensures Settled(after, v) && after.manifests[v] == before.manifests[v]
    ensures RecordedPage(r, after, v) == RecordedPage(r, before, v)
    ensures var items := before.manifests[v].manifest.items;
      RecordedChildren(after.children, items) == RecordedChildren(before.children, items)
  {
    hide PageInv, ChildrenInv, EventsInv, GrantInv, Frozen, RecordedChildren;
    var row := before.manifests[v];
    assert ManifestInv(r, before.page, before.children, v, row);
    forall id | id in row.manifest.items
      ensures id in before.children && id in after.children && Extends(before.children[id], after.children[id])
      ensures row.manifest.items[id].target <= before.children[id].version
    {
      assert MemberInv(before.children, id, row.manifest.items[id], row.status);
      assert NamedByManifest(before.manifests, id);
    }
    RecordedAlike(before.children, after.children, row.manifest.items);
  }

  lemma RecordedAlike(before: map<Id, Child>, after: map<Id, Child>, items: map<Id, Member>)
    requires forall id | id in items ::
      && id in before && id in after && Extends(before[id], after[id])
      && items[id].target <= before[id].version
    ensures RecordedChildren(after, items) == RecordedChildren(before, items)
  {
  }

  // ---------------------------------------------------------------- publishing shows the revision

  /** Members a publication leaves live. */
  function KeptIds(items: map<Id, Member>): set<Id> {
    set id | id in items && !items[id].action.Remove?
  }

  /** A published child's current content is on record. */
  ghost predicate PublishedOnRecord(children: map<Id, Child>) {
    forall id | id in children && children[id].status.Published? ::
      children[id].version in children[id].revisions && children[id].revisions[children[id].version] == children[id].content
  }

  lemma InvPutsPublishedOnRecord(children: map<Id, Child>, childRows: map<Id, Rows>)
    requires ChildrenInv(children, childRows)
    ensures PublishedOnRecord(children)
  {
    forall id | id in children && children[id].status.Published?
      ensures children[id].version in children[id].revisions && children[id].revisions[children[id].version] == children[id].content
    {
      assert ChildInv(children[id], RowsFor(childRows, id));
    }
  }

  lemma MembersShow(children: map<Id, Child>, items: map<Id, Member>)
    requires PublishedOnRecord(children) && items == CollectItems(children)
    ensures LiveChildren(MemberRows(children, items)) == RecordedChildren(PublishMembers(children, items), items)
  {
    var rows := MemberRows(children, items);
    var after := PublishMembers(children, items);
    forall id | id in rows
      ensures items[id].target in after[id].revisions && after[id].revisions[items[id].target] == children[id].content
    {
      assert items[id] == MemberFor(children[id]);
      assert after[id] == PublishMember(children[id], items[id]);
    }
    assert rows.Keys == KeptIds(items);
  }

  lemma MembersWhollyLive(r: Rules, children: map<Id, Child>, items: map<Id, Member>)
    requires AllReady(r, children) && items == CollectItems(children)
    ensures ChildrenWhollyLive(PublishMembers(children, items), MemberRows(children, items), items)
  {
    var rows := MemberRows(children, items);
    forall id | id in rows
      ensures PublishMember(children[id], items[id]).version == items[id].target
      ensures CompleteAt(rows[id], items[id].target)
    {
      assert items[id] == MemberFor(children[id]);
      assert ChildReady(r, children[id].content);
    }
    assert rows.Keys == KeptIds(items);
  }

  ghost predicate ChildrenWhollyLive(children: map<Id, Child>, childRows: map<Id, Rows>, items: map<Id, Member>) {
    && childRows.Keys == KeptIds(items)
    && forall id | id in childRows ::
         && id in children && children[id].status.Published?
         && children[id].version == items[id].target
         && CompleteAt(childRows[id], items[id].target)
  }

  /** All or nothing: after a publication of manifest `m` the live children are exactly the
      members it kept or published, each complete at its target version, and the page with them. */
  ghost predicate WhollyLive(db: Db, m: Manifest) {
    && db.page.status.Published? && db.page.version == m.target
    && CompleteAt(db.pageRows, m.target)
    && ChildrenWhollyLive(db.children, db.childRows, m.items)
  }

  /** The tables show manifest `m`, put live over `db`. */
  ghost predicate LiveUnder(r: Rules, db: Db, m: Manifest, after: Db) {
    && after.page.version == m.target && after.page.status.Published?
    && m.target in after.page.revisions && after.page.revisions[m.target] == db.page.content
    && after.children == PublishMembers(db.children, m.items)
    && after.pageRows == PageRowsOf(r, db.page.content, m.target)
    && after.childRows == MemberRows(db.children, m.items)
    && m.target in after.manifests && after.manifests[m.target].manifest == m
  }

  lemma LiveUnderShows(r: Rules, db: Db, m: Manifest, after: Db)
    requires ChildrenInv(db.children, db.childRows) && AllReady(r, db.children) && PageReady(r, db.page.content)
    requires m.items == CollectItems(db.children) && LiveUnder(r, db, m, after)
    ensures Shows(r, after, m.target) && WhollyLive(after, m)
  {
    hide ChildrenInv, AllReady, CollectItems, PublishMembers, MemberRows, RecordedChildren, LiveChildren,
      ChildrenWhollyLive, PublishedOnRecord;
    InvPutsPublishedOnRecord(db.children, db.childRows);
    MembersShow(db.children, m.items);
    MembersWhollyLive(r, db.children, m.items);
    CompleteRowsAreUniform(after.pageRows, m.target);
  }

  lemma PublishGroupShows(r: Rules, db: Db, expected: Version)
    requires Inv(r, db) && PublishGroup(r, db, expected).Ok?
    ensures var after := PublishGroup(r, db, expected).value;
      && Settled(after, expected + 1)
      && after.manifests[expected + 1].manifest.items == CollectItems(db.children)
      && Shows(r, after, expected + 1)
      && WhollyLive(after, after.manifests[expected + 1].manifest)
  {
    hide PublishGroup, CollectItems, PublishMembers, MemberRows, PageRowsOf, CaptureBaseline, Shows, WhollyLive, Inv,
      ChildrenInv, PageReady, AllReady;
    InvParts(r, db);
    PublishGroupSteps(r, db, expected);
    BaselineGrows(r, db);
    PublishedTables(r, db, expected);
    LiveUnderShows(r, db, Manifest(expected, expected + 1, CollectItems(db.children)), PublishGroup(r, db, expected).value);
  }

  /** What a completion makes of page, children, rows and manifests. */
  lemma CompletedTables(r: Rules, db: Db, v: Version)
    requires Inv(r, db) && CompleteHomePublish(r, db, v, v).Ok? && !DeliveredAt(db.outbox, v)
    ensures var after := CompleteHomePublish(r, db, v, v).value;
      && db.page.version == v && v in db.manifests && db.manifests[v].manifest.target == v && LiveUnder(r, db, db.manifests[v].manifest, after)
      && db.manifests[v].manifest.items == CollectItems(db.children)
      && !RevisionClash(db.children, CollectItems(db.children))
      && PageReady(r, db.page.content) && AllReady(r, db.children)
      && db.manifests[v].status.ManifestPending? && after.manifests == db.manifests[v := db.manifests[v].(status := ManifestPublished)]
      && PageGrows(db.page, after.page)
  {
    hide Inv, CollectItems, PublishMembers, MemberRows, PageRowsOf, RevisionClash, CompleteHomePublish, PageReady, AllReady;
    CompletionSteps(r, db, v);
    PublishEventAt(r, db, v);
    FrozenLoads(r, db);
    PendingNow(r, db);
  }

  lemma PendingNow(r: Rules, db: Db)
    requires Inv(r, db) && db.page.status.Publishing?
    ensures db.page.version in db.manifests && db.manifests[db.page.version].status.ManifestPending?
  {
  }

  lemma CompleteHomePublishShows(r: Rules, db: Db, v: Version)
    requires Inv(r, db) && CompleteHomePublish(r, db, v, v).Ok? && !DeliveredAt(db.outbox, v)
    ensures var after := CompleteHomePublish(r, db, v, v).value;
      && Settled(after, v)
      && after.manifests[v].manifest.items == CollectItems(db.children)
      && Shows(r, after, v)
      && WhollyLive(after, after.manifests[v].manifest)
  {
    hide Inv, ChildrenInv, CompleteHomePublish, CollectItems, PublishMembers, MemberRows, PageRowsOf, Shows,
      WhollyLive, PageReady, AllReady;
    InvParts(r, db);
    CompletedTables(r, db, v);
    LiveUnderShows(r, db, db.manifests[v].manifest, CompleteHomePublish(r, db, v, v).value);
  }

  lemma DeleteLeavesRowsAlone(db: Db, id: Id, expected: Version)
    requires forall k | k in db.childRows :: db.childRows[k] != map[]
    requires DeleteChild(db, id, expected).Ok?
    ensures DeleteChild(db, id, expected).value.childRows == db.childRows
    ensures DeleteChild(db, id, expected).value.pageRows == db.pageRows
  {
  }

  lemma StartLeavesRowsAlone(r: Rules, db: Db, expected: Version)
    requires StartHomePublish(r, db, expected).Ok?
    ensures StartHomePublish(r, db, expected).value.pageRows == db.pageRows
    ensures StartHomePublish(r, db, expected).value.childRows == db.childRows
  {
    BaselineGrows(r, db);
  }

  /** Only publishing and unpublishing touch what readers see. */
  lemma EditsLeaveRowsAlone(r: Rules, db: Db, op: Op)
    requires forall k | k in db.childRows :: db.childRows[k] != map[]
    requires Apply(r, db, op).Ok?
    requires !op.OpPublishGroup? && !op.OpUnpublishGroup?
    ensures Apply(r, db, op).value.pageRows == db.pageRows
    ensures Apply(r, db, op).value.childRows == db.childRows
  {
    hide DeleteChild, StartHomePublish, VideoTaken, RestoreError;
    match op
    case OpDeleteChild(id, expected) => DeleteLeavesRowsAlone(db, id, expected);
    case OpStartHomePublish(expected) => StartLeavesRowsAlone(r, db, expected);
    case _ =>
  }

  // ---------------------------------------------------------------- restoring

  predicate RemovesNothing(items: map<Id, Member>) {
    forall id | id in items :: !items[id].action.Remove?
  }

  /** No child holds the YouTube id recorded for another one, except for members that are
      written earlier and so give theirs up in time. */
  predicate VideosAreFree(children: map<Id, Child>, items: map<Id, Member>) {
    forall id, other | id in items && other in children && other != id && OnRecord(children, items, id) ::
      (other in items && Less(other, id)) || !SameVideo(children[other].content, Record(children, items, id))
  }

  predicate NothingCollides(children: map<Id, Child>, items: map<Id, Member>) {
    forall id | id in items :: !Collides(children, items, id)
  }

  ghost predicate Restorable(db: Db, revision: Version, expected: Version) {
    db.page.version == expected && !Busy(db.page.status) && Settled(db, revision)
  }

  /** When a restore succeeds, exactly: no missing child and no missing snapshot ever stops it,
      except that a published manifest that removed a member cannot be restored at all, and
      that recorded YouTube ids can have moved on to other children since. */
  lemma RestoreSucceedsExactly(r: Rules, db: Db, revision: Version, expected: Version)
    requires Inv(r, db)
    ensures RestoreGroup(r, db, revision, expected).Ok? <==>
      && Restorable(db, revision, expected)
      && var row := db.manifests[revision];
      && (row.status.ManifestPublished? ==> RemovesNothing(row.manifest.items))
      && VideosAreFree(db.children, row.manifest.items)
      && (row.manifest.source == row.manifest.target ==> RecordsDistinct(db.children, row.manifest.items))
  {
    hide Inv, RestoreError, VideosAreFree, RecordsDistinct, RemovesNothing, RestoreChildren;
    if Settled(db, revision) {
      var items := db.manifests[revision].manifest.items;
      SettledManifest(r, db, revision);
      RestoreErrorIsNone(db.children, items);
    }
  }

  /** What stops it then: a removed member, or else a YouTube id that is taken. */
  lemma RestoreFailsWith(r: Rules, db: Db, revision: Version, expected: Version)
    requires Inv(r, db) && Restorable(db, revision, expected)
    ensures var row := db.manifests[revision];
      var result := RestoreGroup(r, db, revision, expected);
      && (result.Ok? || result == Err(NotFound) || result == Err(Duplicate))
      && ((row.status.ManifestPublished? && !RemovesNothing(row.manifest.items) && NothingCollides(db.children, row.manifest.items))
          ==> result == Err(NotFound))
      && ((row.status.ManifestPublished? ==> RemovesNothing(row.manifest.items)) && result.Err? ==> result == Err(Duplicate))
  {
    hide Inv, RestoreError, RemovesNothing, RestoreChildren, Collides;
    var row := db.manifests[revision];
    SettledManifest(r, db, revision);
    RestoreErrors(db.children, row.manifest.items);
    if row.status.ManifestPublished? && !RemovesNothing(row.manifest.items) && NothingCollides(db.children, row.manifest.items) {
      MissingStops(db.children, row.manifest.items);
    }
  }

  /** What the invariant says of a settled revision. */
  lemma SettledManifest(r: Rules, db: Db, revision: Version)
    requires Inv(r, db) && Settled(db, revision)
    ensures var row := db.manifests[revision];
      && ValidManifest(row.manifest) && r.digest(row.manifest) == row.sha
      && (row.manifest.source < row.manifest.target ==> RecordsDistinct(db.children, row.manifest.items))
      && (SnapshotsExist(db.children, row.manifest.items) <==>
          (row.status.ManifestPublished? ==> RemovesNothing(row.manifest.items)))
      && (RemovesNothing(row.manifest.items) ==> SnapshotsExist(db.children, row.manifest.items))
    ensures !RevisionAhead(db.children) && db.page.version + 1 !in db.page.revisions
  {
    var row := db.manifests[revision];
    hide VideosUnique, RecordsDistinct, EventsInv, GrantInv, Frozen;
    assert ManifestInv(r, db.page, db.children, revision, row);
    forall id | id in row.manifest.items
      ensures MemberInv(db.children, id, row.manifest.items[id], row.status) {}
    NoRevisionAhead(db.children, db.childRows);
  }

  lemma RestoreErrorIsNone(children: map<Id, Child>, items: map<Id, Member>)
    requires !RevisionAhead(children)
    ensures RestoreError(children, items).None? <==>
      SnapshotsExist(children, items) && VideosAreFree(children, items) && RecordsDistinct(children, items)
  {
    hide Collides, VideosAreFree, RecordsDistinct;
    if SnapshotsExist(children, items) { NoneCollides(children, items); }
    if RestoreError(children, items).None? { RestoreMeetsNoError(children, items); }
  }

  /** Members collide at no turn exactly when the recorded ids are free and distinct. */
  lemma NoneCollides(children: map<Id, Child>, items: map<Id, Member>)
    requires SnapshotsExist(children, items)
    ensures NothingCollides(children, items) <==>
      VideosAreFree(children, items) && RecordsDistinct(children, items)
  {
    if NothingCollides(children, items) {
      forall a, b | OnRecord(children, items, a) && OnRecord(children, items, b) && a != b
        ensures !SameVideo(Record(children, items, a), Record(children, items, b))
      {
        LessIsTotal(a, b);
        if Less(a, b) {
          assert !Collides(children, items, b) && ContentAt(children, items, b, a) == Record(children, items, a);
        } else {
          assert !Collides(children, items, a) && ContentAt(children, items, a, b) == Record(children, items, b);
        }
      }
      forall id, other | OnRecord(children, items, id) && other in children && other != id && !(other in items && Less(other, id))
        ensures !SameVideo(children[other].content, Record(children, items, id))
      {
        assert !Collides(children, items, id) && ContentAt(children, items, id, other) == children[other].content;
      }
    }
  }

  lemma RestoreErrors(children: map<Id, Child>, items: map<Id, Member>)
    ensures var error := RestoreError(children, items); error.None? || error == Some(NotFound) || error == Some(Duplicate)
    ensures SnapshotsExist(children, items) ==> RestoreError(children, items) != Some(NotFound)
  {
    hide Collides, NoErrorBefore;
  }

  /** Without collisions the first missing record stops the restore. */
  lemma MissingStops(children: map<Id, Child>, items: map<Id, Member>)
    requires !RevisionAhead(children) && !SnapshotsExist(children, items) && NothingCollides(children, items)
    ensures RestoreError(children, items) == Some(NotFound)
  {
    hide Collides, Less;
    var missing := set id | id in items && !OnRecord(children, items, id);
    var some :| some in items && !OnRecord(children, items, some);
    assert some in missing;
    var id := LeastExists(missing);
    assert NoErrorBefore(children, items, id) by {
      forall earlier | earlier in items && Less(earlier, id) ensures MemberError(children, items, earlier).None? {
        assert earlier !in missing;
      }
    }
    hide NoErrorBefore;
    assert MemberError(children, items, id) == Some(NotFound);
  }

  // ---------------------------------------------------------------- when publishing succeeds

  /** Beyond what a caller can check, nothing stands in the way of a group publication: on
      reachable tables it succeeds exactly for an idle page at the expected version, on the
      first template if it is Home, with page and children publishable in five locales. */
  lemma PublishGroupSucceedsExactly(r: Rules, db: Db, expected: Version)
    requires Inv(r, db)
    ensures PublishGroup(r, db, expected).Ok? <==>
      && db.page.version == expected && !Busy(db.page.status)
      && (r.kind.Home? ==> db.page.content.template.HomeV1?)
      && PageReady(r, db.page.content) && AllReady(r, db.children)
  {
    hide Inv, CaptureBaseline, GoLive, RetireBanner, CollectItems, Collect, PageReady, AllReady, ManifestInv, PublishGroup;
    BaselineKeeps(r, db);
    BaselineGrows(r, db);
    var based := CaptureBaseline(r, db).value;
    if !Busy(db.page.status) && PageReady(r, db.page.content) && AllReady(r, db.children) &&
       (r.kind.Home? ==> db.page.content.template.HomeV1?) {
      var m := Manifest(db.page.version, db.page.version + 1, CollectItems(db.children));
      CollectSucceeds(r, based, db.page.version + 1);
      TargetIsNew(r, based);
      IdleManifests(r, based);
      GoLiveAfterRecording(r, based, m, ManifestPublished);
      PublishGroupGoes(r, db, m);
    }
    PublishGroupGuards(r, db, expected);
    if PublishGroup(r, db, expected).Ok? { PublishGroupSteps(r, db, expected); }
  }

  lemma PublishGroupGuards(r: Rules, db: Db, expected: Version)
    ensures PublishGroup(r, db, expected).Ok? ==>
      db.page.version == expected && !Busy(db.page.status) && (r.kind.Home? ==> db.page.content.template.HomeV1?)
  {
    hide CaptureBaseline, GoLive, RetireBanner, Collect, InsertManifest;
  }

  lemma PublishGroupGoes(r: Rules, db: Db, m: Manifest)
    requires !Busy(db.page.status) && PageReady(r, db.page.content) && (r.kind.Home? ==> db.page.content.template.HomeV1?)
    requires CaptureBaseline(r, db).Ok?
    requires var based := CaptureBaseline(r, db).value;
      && Collect(r, based, db.page.version + 1) == Ok(m) && InsertManifest(r, based, m, ManifestPublished).Ok?
      && var recorded := InsertManifest(r, based, m, ManifestPublished).value; GoLive(r, recorded, m, recorded.page.live).Ok?
    ensures PublishGroup(r, db, db.page.version).Ok?
  {
    hide CaptureBaseline, GoLive, RetireBanner, Collect, InsertManifest, PageReady;
  }

  lemma CollectSucceeds(r: Rules, db: Db, target: Version)
    requires Inv(r, db) && AllReady(r, db.children)
    ensures Collect(r, db, target) == Ok(Manifest(db.page.version, target, CollectItems(db.children)))
  {
    forall id | id in db.children ensures Collects(db.children[id].status) {
      assert ChildInv(db.children[id], RowsFor(db.childRows, id));
    }
  }

  lemma TargetIsNew(r: Rules, db: Db)
    requires Inv(r, db)
    ensures db.page.version + 1 !in db.manifests && db.page.version + 1 !in db.page.revisions && 1 <= db.page.version
    ensures PublishKey(db.page.version + 1) !in db.outbox
  {
    forall v | v in db.manifests ensures v <= db.page.version { assert ManifestInv(r, db.page, db.children, v, db.manifests[v]); }
    forall v: Version | PublishKey(v) in db.outbox ensures v <= db.page.version {
      assert PublishEventInv(db.page, db.manifests, v, db.outbox[PublishKey(v)]);
    }
  }

  lemma GoLiveAfterRecording(r: Rules, db: Db, m: Manifest, status: ManifestStatus)
    requires Inv(r, db) && !Busy(db.page.status) && PageReady(r, db.page.content) && AllReady(r, db.children)
    requires m == Manifest(db.page.version, db.page.version + 1, CollectItems(db.children))
    requires m.target !in db.manifests && m.target !in db.page.revisions && 1 <= db.page.version
    requires forall v | v in db.manifests ::
      ManifestInv(r, db.page, db.children, v, db.manifests[v]) && !db.manifests[v].status.ManifestPending?
    ensures var recorded := InsertManifest(r, db, m, status);
      recorded.Ok? && GoLive(r, recorded.value, m, recorded.value.page.live).Ok?
  {
    GoLiveKeeps(r, db, m, db.page.live);
    var recorded := InsertManifest(r, db, m, status);
    GoLiveIgnoresManifests(r, db, recorded.value.manifests, m, db.page.live);
    hide GoLive;
  }

  /** The same of starting a Home publication on the second template. */
  lemma StartSucceedsExactly(r: Rules, db: Db, expected: Version)
    requires Inv(r, db)
    ensures StartHomePublish(r, db, expected).Ok? <==>
      && db.page.version == expected && !Busy(db.page.status)
      && r.kind.Home? && db.page.content.template.HomeV2? && db.page.content.banner != ""
      && PageReady(r, db.page.content) && AllReady(r, db.children)
  {
    hide Inv, CaptureBaseline, CollectItems, GoLive, Collect, InsertManifest;
    BaselineKeeps(r, db);
    BaselineGrows(r, db);
    var based := CaptureBaseline(r, db).value;
    TargetIsNew(r, based);
    var m := Manifest(db.page.version, db.page.version + 1, CollectItems(db.children));
    if AllReady(r, db.children) {
      CollectSucceeds(r, based, db.page.version + 1);
      if !Busy(db.page.status) && PageReady(r, db.page.content) {
        IdleManifests(r, based);
        GoLiveAfterRecording(r, based, m, ManifestPending);
        RecordingKeepsOutbox(r, based, m, ManifestPending);
      }
    }
    CollectNeedsReady(r, based, db.page.version + 1);
  }

  lemma RecordingKeepsOutbox(r: Rules, db: Db, m: Manifest, status: ManifestStatus)
    requires InsertManifest(r, db, m, status).Ok?
    ensures InsertManifest(r, db, m, status).value.outbox == db.outbox
  {
  }

  lemma CollectNeedsReady(r: Rules, db: Db, target: Version)
    ensures Collect(r, db, target).Ok? ==> AllReady(r, db.children)
  {
  }

  lemma NoRevisionAhead(children: map<Id, Child>, childRows: map<Id, Rows>)
    requires ChildrenInv(children, childRows)
    ensures forall id | id in children :: children[id].version + 1 !in children[id].revisions
  {
    forall id | id in children ensures children[id].version + 1 !in children[id].revisions {
      assert ChildInv(children[id], RowsFor(childRows, id));
    }
  }

  /** Every child manifest `v` named still exists when it is restored. */
  lemma NamedChildrenExist(r: Rules, db: Db, id: Id)
    requires Inv(r, db) && NamedByManifest(db.manifests, id)
    ensures id in db.children
  {
    var v :| v in db.manifests && id in db.manifests[v].manifest.items;
    assert ManifestInv(r, db.page, db.children, v, db.manifests[v]);
    assert MemberInv(db.children, id, db.manifests[v].manifest.items[id], db.manifests[v].status);
  }

  /** Going live over the children a restore put in place shows the restored members. */
  lemma RestoredContentShows(children: map<Id, Child>, items: map<Id, Member>, restored: map<Id, Child>)
    requires SnapshotsExist(children, items) && RemovesNothing(items)
    requires restored == RestoreChildren(children, items)
    ensures LiveChildren(MemberRows(restored, CollectItems(restored))) == RecordedChildren(children, items)
  {
    hide CollectItems, MemberRows, RestoreChildren, Visible, ChildRowsOf;
    var rows := MemberRows(restored, CollectItems(restored));
    forall id
      ensures id in rows <==> id in items
      ensures id in items ==> Visible(rows[id]) == Visible(ChildRowsOf(Record(children, items, id), items[id].target))
    {
      RestoredRows(children, items, restored, id);
    }
    assert rows.Keys == items.Keys;
  }

  lemma RestoredRows(children: map<Id, Child>, items: map<Id, Member>, restored: map<Id, Child>, id: Id)
    requires SnapshotsExist(children, items) && RemovesNothing(items)
    requires restored == RestoreChildren(children, items)
    ensures var rows := MemberRows(restored, CollectItems(restored));
      && (id in rows <==> id in items)
      && (id in items ==> Visible(rows[id]) == Visible(ChildRowsOf(Record(children, items, id), items[id].target)))
  {
    hide Visible, ChildRowsOf;
    var collected := CollectItems(restored);
    if id in children {
      assert restored[id].status == RestoredStatus(id, items);
      RestoredMember(children[id], id, items);
      if id in items { assert collected[id] == MemberFor(restored[id]); }
    }
  }

  lemma RestoredMember(child: Child, id: Id, items: map<Id, Member>)
    requires id in items ==> items[id].target in child.revisions && !items[id].action.Remove?
    ensures id in items ==> forall v ::
      Visible(ChildRowsOf(RestoredContent(child, id, items), v)) ==
      Visible(ChildRowsOf(child.revisions[items[id].target], items[id].target))
  {
  }

  lemma RestoredGroupShows(r: Rules, db: Db, v: Version, expected: Version)
    requires RestoreGroup(r, db, v, expected).Ok? && RemovesNothing(db.manifests[v].manifest.items)
    requires PublishGroup(r, RestoreGroup(r, db, v, expected).value, expected + 1).Ok?
    ensures var after := PublishGroup(r, RestoreGroup(r, db, v, expected).value, expected + 1).value;
      && LiveChildren(after.childRows) == RecordedChildren(db.children, db.manifests[v].manifest.items)
      && Visible(after.pageRows) == RecordedPage(r, db, v)
  {
    var restored := RestoreGroup(r, db, v, expected).value;
    RestoredContentShows(db.children, db.manifests[v].manifest.items, restored.children);
    PublishedTables(r, restored, expected + 1);
    VersionsAreInvisible(Content(None, "", map[]), db.page.revisions[v], r, expected + 2, v);
  }

  /** The round trip on the first template and on About: restore `v`, then publish. */
  lemma RestoreThenPublishGroup(r: Rules, db: Db, v: Version, expected: Version)
    requires Inv(r, db) && RestoreGroup(r, db, v, expected).Ok? && db.manifests[v].status.ManifestPublished?
    requires PublishGroup(r, RestoreGroup(r, db, v, expected).value, expected + 1).Ok?
    ensures var after := PublishGroup(r, RestoreGroup(r, db, v, expected).value, expected + 1).value;
      && LiveChildren(after.childRows) == RecordedChildren(db.children, db.manifests[v].manifest.items)
      && Visible(after.pageRows) == RecordedPage(r, db, v)
  {
    RestoreSucceedsExactly(r, db, v, expected);
    RestoredGroupShows(r, db, v, expected);
  }

  /** The same on the second template: restore `v`, start, and complete over the same page
      content and children, which the freeze guarantees. */
  lemma RestoreThenCompleteHome(r: Rules, db: Db, v: Version, expected: Version, publishing: Db, w: Version)
    requires Inv(r, db) && RestoreGroup(r, db, v, expected).Ok? && db.manifests[v].status.ManifestPublished?
    requires Inv(r, publishing) && CompleteHomePublish(r, publishing, w, w).Ok? && !DeliveredAt(publishing.outbox, w)
    requires publishing.children == RestoreGroup(r, db, v, expected).value.children
    requires publishing.page.content == db.page.revisions[v]
    ensures var after := CompleteHomePublish(r, publishing, w, w).value;
      LiveChildren(after.childRows) == RecordedChildren(db.children, db.manifests[v].manifest.items) && Visible(after.pageRows) == RecordedPage(r, db, v)
  {
    hide Inv, CompleteHomePublish, CollectItems, MemberRows, PageRowsOf, RecordedChildren, LiveChildren, Visible,
      PageReady, AllReady, RevisionClash, PublishMembers, VideosAreFree, RemovesNothing;
    RestoreSucceedsExactly(r, db, v, expected);
    CompletedTables(r, publishing, w);
    RestoredContentShows(db.children, db.manifests[v].manifest.items, publishing.children);
    VersionsAreInvisible(Content(None, "", map[]), db.page.revisions[v], r, w, v);
  }
}
