/** Published revisions that can no longer be restored, and how the program gets there. */
module UnrestorableRevisions {
  import opened ContentModel
  import opened PageGroup
  import opened PageGroupInvariants
  import opened PageGroupHistory
  import opened PublicationWorker
  import opened PublicationGuarantees

  // ---------------------------------------------------------------- removed members

  lemma RemovalGoesThrough(r: Rules, db: Db, id: Id)
    requires Inv(r, db) && !Busy(db.page.status) && id in db.children && HasRows(db, id)
    requires PageReady(r, db.page.content) && AllReady(r, db.children)
    ensures var deleted := DeleteChild(db, id, db.children[id].version);
      && deleted.Ok?
      && deleted.value.page == db.page.(status := Draft, version := db.page.version + 1)
      && id in deleted.value.children && deleted.value.children[id].status.PendingRemoval?
      && AllReady(r, deleted.value.children)
  {
    hide Inv, PageReady, ChildReady;
    ChildCanBeMarked(r, db, id);
  }

  lemma ChildCanBeMarked(r: Rules, db: Db, id: Id)
    requires Inv(r, db) && id in db.children
    ensures !Busy(db.children[id].status) && db.children[id].version + 1 !in db.children[id].revisions
  {
    assert ChildInv(db.children[id], RowsFor(db.childRows, id));
  }

  /** From every reachable state in which a child is live and the group can be published:
      deleting the child and publishing records a revision that can never be restored. */
  lemma RemovalIsNotRestorable(r: Rules, max: nat, s: System, id: Id)
    requires Reachable(r, max, s) && !Busy(s.db.page.status) && id in s.db.children && HasRows(s.db, id)
    requires PageReady(r, s.db.page.content) && AllReady(r, s.db.children)
    requires r.kind.Home? ==> s.db.page.content.template.HomeV1?
    ensures var v := s.db.page.version;
      var after := Next(r, max, Next(r, max, s, Do(OpDeleteChild(id, s.db.children[id].version))), Do(OpPublishGroup(v + 1)));
      && Reachable(r, max, after) && Settled(after.db, v + 2) && after.db.page.version == v + 2
      && RestoreGroup(r, after.db, v + 2, v + 2) == Err(NotFound)
  {
    hide *;
    var v := s.db.page.version;
    var delete := OpDeleteChild(id, s.db.children[id].version);
    var deleted := Next(r, max, s, Do(delete));
    ReachableDb(r, max, s);
    DeletionHolds(r, s.db, id);
    DoesApply(r, max, s, delete);
    NextIsReachable(r, max, s, Do(delete));
    ReachableDb(r, max, deleted);
    RemovalPublishes(r, deleted.db, id, v + 1);
    DoesApply(r, max, deleted, OpPublishGroup(v + 1));
    NextIsReachable(r, max, deleted, Do(OpPublishGroup(v + 1)));
    var after := Next(r, max, deleted, Do(OpPublishGroup(v + 1)));
    ReachableDb(r, max, after);
    PublishedRemovalIsLost(r, deleted.db, after.db, id, v + 1);
  }

  lemma ReachableDb(r: Rules, max: nat, s: System)
    requires Reachable(r, max, s)
    ensures Inv(r, s.db)
  {
    ReachableHolds(r, max, s);
  }

  /** Deleting the child as a transaction. */
  lemma DeletionHolds(r: Rules, db: Db, id: Id)
    requires Inv(r, db) && !Busy(db.page.status) && id in db.children && HasRows(db, id)
    requires PageReady(r, db.page.content) && AllReady(r, db.children)
    requires r.kind.Home? ==> db.page.content.template.HomeV1?
    ensures var deleted := Apply(r, db, OpDeleteChild(id, db.children[id].version));
      && deleted.Ok?
      && deleted.value.page.version == db.page.version + 1 && !Busy(deleted.value.page.status)
      && PageReady(r, deleted.value.page.content)
      && (r.kind.Home? ==> deleted.value.page.content.template.HomeV1?)
      && id in deleted.value.children && deleted.value.children[id].status.PendingRemoval?
      && AllReady(r, deleted.value.children)
  {
    hide Inv, DeleteChild, PageReady, AllReady;
    RemovalGoesThrough(r, db, id);
  }

  lemma RemovalPublishes(r: Rules, db: Db, id: Id, expected: Version)
    requires Inv(r, db) && !Busy(db.page.status) && db.page.version == expected
    requires PageReady(r, db.page.content) && AllReady(r, db.children)
    requires r.kind.Home? ==> db.page.content.template.HomeV1?
    ensures Apply(r, db, OpPublishGroup(expected)) == PublishGroup(r, db, expected) && PublishGroup(r, db, expected).Ok?
  {
    hide Inv, PublishGroup, PageReady, AllReady;
    PublishGroupSucceedsExactly(r, db, expected);
  }

  lemma PublishedRemovalIsLost(r: Rules, db: Db, after: Db, id: Id, expected: Version)
    requires Inv(r, db) && PublishGroup(r, db, expected) == Ok(after) && Inv(r, after)
    requires id in db.children && db.children[id].status.PendingRemoval?
    ensures Settled(after, expected + 1) && after.page.version == expected + 1
    ensures RestoreGroup(r, after, expected + 1, expected + 1) == Err(NotFound)
  {
    hide Inv, PublishGroup, RestoreGroup, CollectItems, PublishMembers, Shows, WhollyLive, NothingCollides, RemovesNothing;
    PublishGroupShows(r, db, expected);
    RemovedIsNamed(db.children, id);
    PublishedRevision(r, db, expected);
    PublishedChildrenAre(r, db, expected);
    InvOfChildren(r, db);
    PublishedCollideNot(db.children, db.childRows);
    RestoreFailsWith(r, after, expected + 1, expected + 1);
  }

  lemma InvOfChildren(r: Rules, db: Db)
    requires Inv(r, db)
    ensures ChildrenInv(db.children, db.childRows)
  {
  }

  lemma PublishedChildrenAre(r: Rules, db: Db, expected: Version)
    requires PublishGroup(r, db, expected).Ok?
    ensures PublishGroup(r, db, expected).value.children == PublishMembers(db.children, CollectItems(db.children))
  {
    hide PublishGroup, CaptureBaseline, CollectItems, PublishMembers, MemberRows;
    PublishGroupSteps(r, db, expected);
  }

  /** What was just published holds the YouTube ids it recorded. */
  lemma PublishedCollideNot(children: map<Id, Child>, childRows: map<Id, Rows>)
    requires ChildrenInv(children, childRows)
    ensures NothingCollides(PublishMembers(children, CollectItems(children)), CollectItems(children))
  {
    var items := CollectItems(children);
    var after := PublishMembers(children, items);
    PublishedAreUnique(children, childRows);
    PublishedAreRecorded(children, childRows);
    hide CollectItems, PublishMembers, OnRecord, Record;
    forall id | id in items ensures !Collides(after, items, id) {
      forall other | other in after ensures ContentAt(after, items, id, other) == after[other].content {}
    }
  }

  lemma PublishedAreRecorded(children: map<Id, Child>, childRows: map<Id, Rows>)
    requires ChildrenInv(children, childRows)
    ensures var items := CollectItems(children);
      var after := PublishMembers(children, items);
      forall id | OnRecord(after, items, id) :: Record(after, items, id) == after[id].content && id in after
  {
    var items := CollectItems(children);
    var after := PublishMembers(children, items);
    forall id | OnRecord(after, items, id) ensures Record(after, items, id) == after[id].content {
      assert ChildInv(children[id], RowsFor(childRows, id));
    }
  }

  lemma DoesApply(r: Rules, max: nat, s: System, op: Op)
    requires Apply(r, s.db, op).Ok?
    ensures Next(r, max, s, Do(op)).db == Apply(r, s.db, op).value
  {
  }

  lemma RemovedIsNamed(children: map<Id, Child>, id: Id)
    requires id in children && children[id].status.PendingRemoval?
    ensures !RemovesNothing(CollectItems(children))
  {
    assert CollectItems(children)[id].action.Remove?;
  }

  lemma PublishedRevision(r: Rules, db: Db, expected: Version)
    requires PublishGroup(r, db, expected).Ok?
    ensures var after := PublishGroup(r, db, expected).value;
      && after.page.status.Published? && after.page.version == expected + 1
      && expected + 1 in after.manifests && after.manifests[expected + 1].status.ManifestPublished?
  {
    BaselineGrows(r, db);
  }

  /** A group as it was before manifests existed, page and one child published. */
  function PublishedGroup(r: Rules, content: PageContent, child: Content): System {
    System(Db(Page(1, Published, content, None, map[1 := content]), map["c" := Child(1, Published, child, map[1 := child])],
              PageRowsOf(r, content, 1), map["c" := ChildRowsOf(child, 1)], map[], map[]), {}, {}, map[], {})
  }

  /** Such states are reachable, on Home's first template and on About. */
  lemma RemovableIsReachable(r: Rules, max: nat, content: PageContent, child: Content)
    requires PageReady(r, content) && ChildReady(r, child)
    requires TemplateOf(r.kind, content.template) && !content.template.HomeV2?
    ensures var s := PublishedGroup(r, content, child);
      && Reachable(r, max, s) && !Busy(s.db.page.status) && "c" in s.db.children && HasRows(s.db, "c")
      && PageReady(r, s.db.page.content) && AllReady(r, s.db.children)
      && (r.kind.Home? ==> s.db.page.content.template.HomeV1?)
  {
    hide Reachable, Initial, PageRowsOf, ChildRowsOf, PageReady, ChildReady;
    var s := PublishedGroup(r, content, child);
    PublishedGroupIsInitial(r, content, child);
    StartIsReachable(r, max, s);
  }

  lemma PublishedGroupIsInitial(r: Rules, content: PageContent, child: Content)
    requires PageReady(r, content) && ChildReady(r, child)
    requires TemplateOf(r.kind, content.template) && !content.template.HomeV2?
    ensures Initial(r, PublishedGroup(r, content, child)) && ChildRowsOf(child, 1) != map[]
  {
    hide PageInv, ChildInv, ChildRowsOf, PageRowsOf, PageReady, ChildReady, CompleteAt, TemplateOf;
    var db := PublishedGroup(r, content, child).db;
    PublishedPageHolds(r, content);
    PublishedChildHolds(r, child);
    CompleteRowsAreUniform(db.pageRows, 1);
    assert RowsFor(db.childRows, "c") == ChildRowsOf(child, 1);
    assert ChildrenInv(db.children, db.childRows);
  }

  // ---------------------------------------------------------------- YouTube ids that moved on

  /** Recorded videos that have swapped their YouTube ids since cannot be restored, although the
      ids would be unique again afterwards: the members are written one by one. */
  lemma SwappedVideosAreNotRestorable(r: Rules, db: Db, v: Version, expected: Version, a: Id, b: Id)
    requires Inv(r, db) && Settled(db, v) && a != b
    requires var items := db.manifests[v].manifest.items;
      && OnRecord(db.children, items, a) && OnRecord(db.children, items, b)
      && SameVideo(db.children[a].content, Record(db.children, items, b))
      && SameVideo(db.children[b].content, Record(db.children, items, a))
    ensures RestoreGroup(r, db, v, expected).Err?
  {
    hide Inv, RestoreGroup;
    LessIsTotal(a, b);
    RestoreSucceedsExactly(r, db, v, expected);
  }

  /** Give video `a` another YouTube id and create `b` with the one it had. */
  function Moved(r: Rules, max: nat, s: System, a: Id, b: Id, edited: Content, copy: Content): System
    requires a in s.db.children
  {
    Next(r, max, Next(r, max, s, Do(OpUpdateChild(a, s.db.children[a].version, edited))), Do(OpCreateChild(b, copy)))
  }

  /** From every reachable idle state in which a video still has the id a settled revision
      recorded: once the id has moved on to a new video, the revision cannot be restored. */
  lemma MovedVideoIsNotRestorable(r: Rules, max: nat, s: System, v: Version, a: Id, b: Id, edited: Content, copy: Content)
    requires Reachable(r, max, s) && !Busy(s.db.page.status) && Settled(s.db, v)
    requires HoldsRecordedVideo(s.db, v, a, copy) && b !in s.db.children
    requires !SameVideo(edited, copy) && !VideoTaken(s.db.children, a, edited)
    ensures var after := Moved(r, max, s, a, b, edited, copy);
      var result := RestoreGroup(r, after.db, v, after.db.page.version);
      && Reachable(r, max, after) && !Busy(after.db.page.status) && after.db.page.version == s.db.page.version + 2
      && Settled(after.db, v) && after.db.manifests[v] == s.db.manifests[v]
      && result.Err? && (RemovesNothing(s.db.manifests[v].manifest.items) ==> result == Err(Duplicate))
  {
    hide Next, Inv, Apply, Reachable, RestoreGroup, VideoTaken, RemovesNothing;
    var edit, create := OpUpdateChild(a, s.db.children[a].version, edited), OpCreateChild(b, copy);
    var first := Next(r, max, s, Do(edit));
    var after := Next(r, max, first, Do(create));
    ReachableDb(r, max, s);
    EditGoesThrough(r, s.db, v, a, b, edited, copy);
    DoesApply(r, max, s, edit);
    NextIsReachable(r, max, s, Do(edit));
    CreateGoesThrough(r, first.db, b, copy);
    DoesApply(r, max, first, create);
    NextIsReachable(r, max, first, Do(create));
    ReachableDb(r, max, after);
    MovedBlocks(r, s.db, first.db, after.db, v, a, b, copy);
  }

  /** Video `a` has the YouTube id revision `v` recorded for it, and `copy` has it too. */
  predicate HoldsRecordedVideo(db: Db, v: Version, a: Id, copy: Content) {
    && v in db.manifests && OnRecord(db.children, db.manifests[v].manifest.items, a)
    && SameVideo(db.children[a].content, copy)
    && SameVideo(Record(db.children, db.manifests[v].manifest.items, a), copy)
  }

  /** The edit is accepted and leaves the record and the new id alone. */
  lemma EditGoesThrough(r: Rules, db: Db, v: Version, a: Id, b: Id, edited: Content, copy: Content)
    requires Inv(r, db) && !Busy(db.page.status) && HoldsRecordedVideo(db, v, a, copy) && b !in db.children
    requires !SameVideo(edited, copy) && !VideoTaken(db.children, a, edited)
    ensures var first := Apply(r, db, OpUpdateChild(a, db.children[a].version, edited));
      && first.Ok?
      && first.value.page == db.page.(status := Draft, version := db.page.version + 1)
      && first.value.manifests == db.manifests
      && first.value.children == db.children[a := first.value.children[a]]
      && first.value.children[a].content == edited && Extends(db.children[a], first.value.children[a])
      && !VideoTaken(first.value.children, b, copy)
  {
    hide Inv, VideoTaken, UpdateChild, ChildrenInv, HoldsRecordedVideo;
    HoldsId(db, v, a, copy);
    ChildCanBeMarked(r, db, a);
    InvOfChildren(r, db);
    UpdateGoesThrough(db, a, edited);
    UniqueVideos(db.children, db.childRows);
    GivenUp(db.children, UpdateChild(db, a, db.children[a].version, edited).value.children, a, b, edited, copy);
  }

  lemma UpdateGoesThrough(db: Db, a: Id, edited: Content)
    requires a in db.children && !Busy(db.page.status) && !Busy(db.children[a].status) && !VideoTaken(db.children, a, edited)
    requires db.children[a].version + 1 !in db.children[a].revisions
    ensures var first := UpdateChild(db, a, db.children[a].version, edited);
      && first.Ok?
      && first.value.page == db.page.(status := Draft, version := db.page.version + 1)
      && first.value.manifests == db.manifests
      && first.value.children == db.children[a := first.value.children[a]]
      && first.value.children[a].content == edited && Extends(db.children[a], first.value.children[a])
  {
    hide VideoTaken;
  }

  lemma HoldsId(db: Db, v: Version, a: Id, copy: Content)
    requires HoldsRecordedVideo(db, v, a, copy)
    ensures a in db.children && SameVideo(db.children[a].content, copy)
  {
  }

  lemma UniqueVideos(children: map<Id, Child>, childRows: map<Id, Rows>)
    requires ChildrenInv(children, childRows)
    ensures VideosUnique(children)
  {
  }

  lemma GivenUp(before: map<Id, Child>, after: map<Id, Child>, a: Id, b: Id, edited: Content, copy: Content)
    requires VideosUnique(before) && a in before && SameVideo(before[a].content, copy) && !SameVideo(edited, copy)
    requires a in after && after == before[a := after[a]] && after[a].content == edited
    ensures !VideoTaken(after, b, copy)
  {
    if VideoTaken(after, b, copy) {
      var other :| other in after && other != b && SameVideo(after[other].content, copy);
      assert SameVideo(before[other].content, before[a].content);
      assert false;
    }
  }

  lemma CreateGoesThrough(r: Rules, db: Db, b: Id, copy: Content)
    requires !Busy(db.page.status) && b !in db.children && !VideoTaken(db.children, b, copy)
    ensures var after := Apply(r, db, OpCreateChild(b, copy));
      && after.Ok?
      && after.value.page == db.page.(status := Draft, version := db.page.version + 1)
      && after.value.manifests == db.manifests
      && after.value.children == db.children[b := Child(1, Draft, copy, map[1 := copy])]
  {
    hide VideoTaken;
  }

  /** After both, the record of `a` is still there and `b` has its id. */
  lemma MovedBlocks(r: Rules, db: Db, first: Db, after: Db, v: Version, a: Id, b: Id, copy: Content)
    requires Inv(r, db) && Inv(r, after) && Settled(db, v) && HoldsRecordedVideo(db, v, a, copy) && b !in db.children
    requires a in first.children && Extends(db.children[a], first.children[a])
    requires first.page == db.page.(status := Draft, version := db.page.version + 1) && first.manifests == db.manifests
    requires after.page == first.page.(status := Draft, version := first.page.version + 1) && after.manifests == db.manifests
    requires after.children == first.children[b := Child(1, Draft, copy, map[1 := copy])] && first.children == db.children[a := first.children[a]]
    ensures !Busy(after.page.status) && after.page.version == db.page.version + 2 && Settled(after, v)
    ensures var result := RestoreGroup(r, after, v, after.page.version);
      result.Err? && (RemovesNothing(db.manifests[v].manifest.items) ==> result == Err(Duplicate))
  {
    hide Inv, RestoreGroup, RemovesNothing, NothingCollides;
    var items := db.manifests[v].manifest.items;
    MembersExist(r, db, v);
    assert OnRecord(after.children, items, a) && Record(after.children, items, a) == Record(db.children, items, a);
    assert SameVideo(after.children[b].content, Record(after.children, items, a));
    assert !VideosAreFree(after.children, items);
    hide VideosAreFree;
    RestoreSucceedsExactly(r, after, v, after.page.version);
    RestoreFailsWith(r, after, v, after.page.version);
  }

  lemma MembersExist(r: Rules, db: Db, v: Version)
    requires Inv(r, db) && v in db.manifests
    ensures forall id | id in db.manifests[v].manifest.items :: id in db.children
  {
    forall id | id in db.manifests[v].manifest.items ensures id in db.children {
      assert NamedByManifest(db.manifests, id);
      NamedChildrenExist(r, db, id);
    }
  }

  /** Such states are reachable: publish the group that was published before there were
      manifests once more. */
  lemma RecordedVideoIsReachable(r: Rules, max: nat, content: PageContent, child: Content)
    requires PageReady(r, content) && ChildReady(r, child) && child.youtubeId.Some?
    requires TemplateOf(r.kind, content.template) && !content.template.HomeV2?
    ensures var s := Next(r, max, PublishedGroup(r, content, child), Do(OpPublishGroup(1)));
      && Reachable(r, max, s) && !Busy(s.db.page.status) && Settled(s.db, 2)
      && RemovesNothing(s.db.manifests[2].manifest.items) && HoldsRecordedVideo(s.db, 2, "c", child)
  {
    hide Inv, PublishGroup, Reachable, Next, PageReady, ChildReady, AllReady, PageRowsOf, ChildRowsOf, HasRows, Shows,
      WhollyLive, CollectItems, PublishMembers, RemovesNothing, HoldsRecordedVideo, TemplateOf;
    var before := PublishedGroup(r, content, child);
    RemovableIsReachable(r, max, content, child);
    ReachableDb(r, max, before);
    RemovalPublishes(r, before.db, "c", 1);
    DoesApply(r, max, before, OpPublishGroup(1));
    NextIsReachable(r, max, before, Do(OpPublishGroup(1)));
    PublishGroupShows(r, before.db, 1);
    PublishedRevision(r, before.db, 1);
    PublishedChildrenAre(r, before.db, 1);
    OnlyChildIsRecorded(child, Next(r, max, before, Do(OpPublishGroup(1))).db);
  }

  lemma OnlyChildIsRecorded(child: Content, after: Db)
    requires child.youtubeId.Some? && 2 in after.manifests
    requires var children := map["c" := Child(1, Published, child, map[1 := child])];
      after.manifests[2].manifest.items == CollectItems(children) && after.children == PublishMembers(children, CollectItems(children))
    ensures RemovesNothing(after.manifests[2].manifest.items) && HoldsRecordedVideo(after, 2, "c", child)
  {
  }

  // ---------------------------------------------------------------- what was live before manifests

  /** Two videos that went live under one YouTube id, each on its own: the first was edited
      since, which freed the id for the second. */
  function LegacyPair(r: Rules, content: PageContent, first: Content, edited: Content, second: Content): System {
    System(Db(Page(1, Published, content, None, map[1 := content]),
              map["a" := Child(2, Draft, edited, map[1 := first, 2 := edited]), "b" := Child(1, Published, second, map[1 := second])],
              PageRowsOf(r, content, 1), map["a" := ChildRowsOf(first, 1), "b" := ChildRowsOf(second, 1)], map[], map[]), {}, {}, map[], {})
  }

  /** So the manifest of what was live before there were manifests, unlike any later one, can
      record one YouTube id twice. */
  lemma BaselineCanRepeatAVideo(r: Rules, max: nat, content: PageContent, first: Content, edited: Content, second: Content)
    requires PageReady(r, content) && ChildReady(r, first) && ChildReady(r, second)
    requires TemplateOf(r.kind, content.template) && !content.template.HomeV2?
    requires SameVideo(first, second) && !SameVideo(edited, second)
    ensures var s := LegacyPair(r, content, first, edited, second);
      && Reachable(r, max, s) && CaptureBaseline(r, s.db).Ok?
      && var based := CaptureBaseline(r, s.db).value;
      && Settled(based, 1) && based.manifests[1].manifest.source == based.manifests[1].manifest.target
      && !RecordsDistinct(based.children, based.manifests[1].manifest.items)
  {
    hide PageRowsOf, ChildRowsOf, PageReady, ChildReady, Initial, CompleteAt, CaptureBaseline, TemplateOf;
    var s := LegacyPair(r, content, first, edited, second);
    LegacyPairIsInitial(r, content, first, edited, second);
    StartIsReachable(r, max, s);
    PublishedPageHolds(r, content);
    EditedChildHolds(r, first, edited);
    PublishedChildHolds(r, second);
    hide Reachable, Run;
    LegacyBaseline(r, s, PageRowsOf(r, content, 1), ChildRowsOf(first, 1), ChildRowsOf(second, 1));
    BothAreRecorded(s.db.children, first, edited, second);
  }

  lemma StartIsReachable(r: Rules, max: nat, s: System)
    requires Initial(r, s)
    ensures Reachable(r, max, s)
  {
    assert Run(r, max, s, []) == s;
  }

  lemma BothAreRecorded(children: map<Id, Child>, first: Content, edited: Content, second: Content)
    requires SameVideo(first, second)
    requires children == map["a" := Child(2, Draft, edited, map[1 := first, 2 := edited]), "b" := Child(1, Published, second, map[1 := second])]
    ensures !RecordsDistinct(children, map["a" := Member(1, 1, Keep), "b" := Member(1, 1, Keep)])
  {
    var items := map["a" := Member(1, 1, Keep), "b" := Member(1, 1, Keep)];
    assert OnRecord(children, items, "a") && OnRecord(children, items, "b");
  }

  lemma LegacyBaseline(r: Rules, s: System, pageRows: Rows, firstRows: Rows, secondRows: Rows)
    requires CompleteAt(pageRows, 1) && CompleteAt(firstRows, 1) && CompleteAt(secondRows, 1)
    requires s.db.manifests == map[] && s.db.pageRows == pageRows && s.db.childRows == map["a" := firstRows, "b" := secondRows]
    ensures var items := map["a" := Member(1, 1, Keep), "b" := Member(1, 1, Keep)];
      CaptureBaseline(r, s.db) ==
        Ok(s.db.(manifests := map[1 := ManifestRow(Manifest(1, 1, items), r.digest(Manifest(1, 1, items)), ManifestPublished)]))
  {
    hide VersionOf, Uniform, CompleteAt, BaselineItems, MixedVersions;
    CompleteRowsAreUniform(pageRows, 1);
    LegacyItems(s.db, firstRows, secondRows);
  }

  lemma LegacyItems(db: Db, firstRows: Rows, secondRows: Rows)
    requires CompleteAt(firstRows, 1) && CompleteAt(secondRows, 1) && Uniform(db.pageRows)
    requires db.childRows == map["a" := firstRows, "b" := secondRows]
    ensures BaselineItems(db.childRows) == map["a" := Member(1, 1, Keep), "b" := Member(1, 1, Keep)] && !MixedVersions(db)
  {
    LegacyVersions(firstRows, secondRows);
    LegacyMembers(db.childRows, firstRows, secondRows);
    hide VersionOf, Uniform, CompleteAt, BaselineItems;
  }

  lemma LegacyVersions(firstRows: Rows, secondRows: Rows)
    requires CompleteAt(firstRows, 1) && CompleteAt(secondRows, 1)
    ensures Uniform(firstRows) && Uniform(secondRows)
  {
    CompleteRowsAreUniform(firstRows, 1);
    CompleteRowsAreUniform(secondRows, 1);
  }

  lemma LegacyMembers(childRows: map<Id, Rows>, firstRows: Rows, secondRows: Rows)
    requires CompleteAt(firstRows, 1) && CompleteAt(secondRows, 1) && childRows == map["a" := firstRows, "b" := secondRows]
    ensures BaselineItems(childRows) == map["a" := Member(1, 1, Keep), "b" := Member(1, 1, Keep)]
  {
    hide VersionOf, CompleteAt;
    CompleteRowsAreUniform(firstRows, 1);
    CompleteRowsAreUniform(secondRows, 1);
    hide Uniform;
    var items := BaselineItems(childRows);
    assert items.Keys == {"a", "b"};
    assert items["a"] == Member(1, 1, Keep) && items["b"] == Member(1, 1, Keep);
  }

  lemma LegacyPairIsInitial(r: Rules, content: PageContent, first: Content, edited: Content, second: Content)
    requires PageReady(r, content) && ChildReady(r, first) && ChildReady(r, second)
    requires TemplateOf(r.kind, content.template) && !content.template.HomeV2?
    requires SameVideo(first, second) && !SameVideo(edited, second)
    ensures Initial(r, LegacyPair(r, content, first, edited, second))
  {
    hide PageInv, ChildrenInv, ChildRowsOf, PageRowsOf, PageReady, ChildReady, CompleteAt, TemplateOf, SameVideo;
    var db := LegacyPair(r, content, first, edited, second).db;
    PublishedPageHolds(r, content);
    LegacyChildrenHold(r, first, edited, second);
    CompleteRowsAreUniform(db.pageRows, 1);
  }

  lemma LegacyChildrenHold(r: Rules, first: Content, edited: Content, second: Content)
    requires ChildReady(r, first) && ChildReady(r, second) && !SameVideo(edited, second)
    ensures ChildrenInv(map["a" := Child(2, Draft, edited, map[1 := first, 2 := edited]), "b" := Child(1, Published, second, map[1 := second])],
                        map["a" := ChildRowsOf(first, 1), "b" := ChildRowsOf(second, 1)])
  {
    hide ChildInv, ChildRowsOf, ChildReady, CompleteAt;
    EditedChildHolds(r, first, edited);
    PublishedChildHolds(r, second);
  }

  lemma PublishedPageHolds(r: Rules, content: PageContent)
    requires PageReady(r, content) && TemplateOf(r.kind, content.template)
    ensures CompleteAt(PageRowsOf(r, content, 1), 1)
    ensures PageInv(r, Page(1, Published, content, None, map[1 := content]), PageRowsOf(r, content, 1))
  {
    CompleteRowsAreUniform(PageRowsOf(r, content, 1), 1);
  }

  lemma PublishedChildHolds(r: Rules, content: Content)
    requires ChildReady(r, content)
    ensures CompleteAt(ChildRowsOf(content, 1), 1) && ChildRowsOf(content, 1) != map[]
    ensures ChildInv(Child(1, Published, content, map[1 := content]), ChildRowsOf(content, 1))
  {
    CompleteRowsAreUniform(ChildRowsOf(content, 1), 1);
  }

  lemma EditedChildHolds(r: Rules, content: Content, edited: Content)
    requires ChildReady(r, content)
    ensures CompleteAt(ChildRowsOf(content, 1), 1) && ChildRowsOf(content, 1) != map[]
    ensures ChildInv(Child(2, Draft, edited, map[1 := content, 2 := edited]), ChildRowsOf(content, 1))
  {
    CompleteRowsAreUniform(ChildRowsOf(content, 1), 1);
  }
}
