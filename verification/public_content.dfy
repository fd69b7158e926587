/** What readers of Home and About see, field by field and locale by locale. */
module PublicContent {
  import opened ContentModel
  import opened PageGroup
  import opened PageGroupInvariants
  import opened PageGroupHistory
  import opened PublicationWorker
  import opened PublicationGuarantees

  /** The rows show the content: one row for each of its translations, with that translation's
      text and the entry's own columns. */
  ghost predicate ShowsChild(rows: Rows, content: Content) {
    && (forall l :: l in rows <==> l in content.translations)
    && forall l | l in rows ::
         && rows[l].payload.ChildPayload?
         && rows[l].payload.text == content.translations[l]
         && rows[l].payload.youtubeId == content.youtubeId
         && rows[l].payload.fields == content.fields
  }

  /** The same of a page. The second Home template shows its settings and the banner's URL. */
  ghost predicate ShowsPage(r: Rules, rows: Rows, content: PageContent) {
    && (forall l :: l in rows <==> l in content.translations)
    && forall l | l in rows ::
         && rows[l].payload.PagePayload?
         && rows[l].payload.text == content.translations[l]
         && rows[l].payload.template == content.template
         && rows[l].payload.indexable == content.indexable
         && (content.template.HomeV2? ==>
               rows[l].payload.settings == content.settings && rows[l].payload.bannerUrl == r.publicUrl(content.banner))
         && (!content.template.HomeV2? ==> rows[l].payload.settings == "" && rows[l].payload.bannerUrl == "")
  }

  // ---------------------------------------------------------------- every reachable state

  /** A public row of a child shows, in its locale, the revision of its version. */
  lemma ChildRowsShowRevisions(r: Rules, max: nat, s: System, id: Id, l: Locale)
    requires Reachable(r, max, s) && id in s.db.childRows && l in s.db.childRows[id]
    ensures id in s.db.children && s.db.childRows[id][l].version in s.db.children[id].revisions
    ensures ShowsChild(s.db.childRows[id], s.db.children[id].revisions[s.db.childRows[id][l].version])
  {
    hide Reachable, SystemInv, Inv;
    ReachableHolds(r, max, s);
    SystemHoldsInv(r, s);
    InvParts(r, s.db);
    ChildRowsShow(s.db.children, s.db.childRows, id, l);
  }

  lemma ChildRowsShow(children: map<Id, Child>, childRows: map<Id, Rows>, id: Id, l: Locale)
    requires ChildrenInv(children, childRows) && id in childRows && l in childRows[id]
    ensures id in children && childRows[id][l].version in children[id].revisions
    ensures ShowsChild(childRows[id], children[id].revisions[childRows[id][l].version])
  {
    hide VideosUnique, ChildInv, ShowsChild;
    assert ChildInv(children[id], RowsFor(childRows, id));
    ChildShowsRevision(children[id], childRows[id], l);
  }

  lemma ChildShowsRevision(child: Child, rows: Rows, l: Locale)
    requires ChildInv(child, rows) && l in rows
    ensures rows[l].version in child.revisions && ShowsChild(rows, child.revisions[rows[l].version])
  {
  }

  /** So does a public row of the page. */
  lemma PageRowsShowRevision(r: Rules, max: nat, s: System, l: Locale)
    requires Reachable(r, max, s) && l in s.db.pageRows
    ensures s.db.pageRows[l].version in s.db.page.revisions
    ensures ShowsPage(r, s.db.pageRows, s.db.page.revisions[s.db.pageRows[l].version])
  {
    hide Reachable, SystemInv, Inv;
    ReachableHolds(r, max, s);
    SystemHoldsInv(r, s);
    InvParts(r, s.db);
    PageRowsShow(r, s.db.page, s.db.pageRows, l);
  }

  lemma PageRowsShow(r: Rules, page: Page, rows: Rows, l: Locale)
    requires PageInv(r, page, rows) && l in rows
    ensures rows[l].version in page.revisions && ShowsPage(r, rows, page.revisions[rows[l].version])
  {
  }

  // ---------------------------------------------------------------- publishing shows the drafts

  /** Readers see exactly the children that are neither withdrawn nor marked for removal, as they
      were last saved, and the page as it was last saved. */
  ghost predicate ShowsDrafts(r: Rules, saved: Db, shown: Db) {
    && (forall id :: id in shown.childRows <==>
          id in saved.children && !saved.children[id].status.Unpublished? && !saved.children[id].status.PendingRemoval?)
    && (forall id | id in shown.childRows :: id in saved.children && ShowsChild(shown.childRows[id], saved.children[id].content))
    && ShowsPage(r, shown.pageRows, saved.page.content)
  }

  lemma LiveRowsShowDrafts(r: Rules, saved: Db, shown: Db, v: Version)
    requires shown.childRows == MemberRows(saved.children, CollectItems(saved.children))
    requires shown.pageRows == PageRowsOf(r, saved.page.content, v)
    ensures ShowsDrafts(r, saved, shown)
  {
    forall id | id in saved.children
      ensures id in shown.childRows <==> !saved.children[id].status.Unpublished? && !saved.children[id].status.PendingRemoval?
      ensures id in shown.childRows ==> ShowsChild(shown.childRows[id], saved.children[id].content)
    {
      ChildShowsDraft(saved.children, id);
    }
  }

  lemma ChildShowsDraft(children: map<Id, Child>, id: Id)
    requires id in children
    ensures var rows := MemberRows(children, CollectItems(children));
      && (id in rows <==> !children[id].status.Unpublished? && !children[id].status.PendingRemoval?)
      && (id in rows ==> ShowsChild(rows[id], children[id].content))
  {
  }

  lemma PublishingShowsDrafts(r: Rules, max: nat, s: System, expected: Version)
    requires Reachable(r, max, s) && PublishGroup(r, s.db, expected).Ok?
    ensures ShowsDrafts(r, s.db, PublishGroup(r, s.db, expected).value)
  {
    hide Reachable, PublishGroup, ShowsDrafts;
    PublishedTables(r, s.db, expected);
    LiveRowsShowDrafts(r, s.db, PublishGroup(r, s.db, expected).value, expected + 1);
  }

  /** On the second template, the drafts of the moment publishing started. */
  lemma CompletionShowsDrafts(r: Rules, max: nat, s: System, during: seq<Step>, expected: Version)
    requires Reachable(r, max, s) && StartHomePublish(r, s.db, expected).Ok?
    requires var end := Run(r, max, Next(r, max, s, Do(OpStartHomePublish(expected))), during).db;
      end.page.status.Publishing? && end.page.version == expected + 1
    ensures var end := Run(r, max, Next(r, max, s, Do(OpStartHomePublish(expected))), during).db;
      && CompleteHomePublish(r, end, expected + 1, expected + 1).Ok?
      && ShowsDrafts(r, s.db, CompleteHomePublish(r, end, expected + 1, expected + 1).value)
  {
    hide Reachable, SystemInv, Inv, StartHomePublish, CompleteHomePublish, Run, ShowsDrafts, Next;
    var started := Next(r, max, s, Do(OpStartHomePublish(expected)));
    var end := Run(r, max, started, during);
    StartStep(r, max, s, expected);
    StartKeepsContent(r, s.db, expected);
    NextIsReachable(r, max, s, Do(OpStartHomePublish(expected)));
    ReachableHolds(r, max, started);
    DuringKeepsGroup(r, max, started, expected + 1, during);
    CompletionIsNeverStale(r, end.db);
    PublishingIsNotDelivered(r, end.db);
    CompletedTables(r, end.db, expected + 1);
    LiveRowsShowDrafts(r, end.db, CompleteHomePublish(r, end.db, expected + 1, expected + 1).value, expected + 1);
    SameDrafts(r, s.db, end.db, CompleteHomePublish(r, end.db, expected + 1, expected + 1).value);
  }

  lemma StartStep(r: Rules, max: nat, s: System, expected: Version)
    requires StartHomePublish(r, s.db, expected).Ok?
    ensures Next(r, max, s, Do(OpStartHomePublish(expected))) == s.(db := StartHomePublish(r, s.db, expected).value)
  {
    hide StartHomePublish;
  }

  lemma SameDrafts(r: Rules, a: Db, b: Db, shown: Db)
    requires ShowsDrafts(r, b, shown) && a.children == b.children && a.page.content == b.page.content
    ensures ShowsDrafts(r, a, shown)
  {
  }

  /** What an editor saves is what the next publication shows. */
  lemma EditsAreShown(r: Rules, max: nat, s: System, op: Op, expected: Version)
    requires Reachable(r, max, s) && (op.OpCreateChild? || op.OpUpdateChild? || op.OpUpdatePage?) && Apply(r, s.db, op).Ok?
    requires PublishGroup(r, Apply(r, s.db, op).value, expected).Ok?
    ensures var shown := PublishGroup(r, Apply(r, s.db, op).value, expected).value;
      if op.OpUpdatePage? then ShowsPage(r, shown.pageRows, op.content)
      else op.id in shown.childRows && ShowsChild(shown.childRows[op.id], op.childContent)
  {
    hide Reachable, Apply, PublishGroup, ShowsChild, ShowsPage, Next;
    DoStep(r, max, s, op);
    NextIsReachable(r, max, s, Do(op));
    PublishingShowsDrafts(r, max, Next(r, max, s, Do(op)), expected);
    EditIsSaved(r, s.db, op);
  }

  lemma DoStep(r: Rules, max: nat, s: System, op: Op)
    requires Apply(r, s.db, op).Ok?
    ensures Next(r, max, s, Do(op)) == s.(db := Apply(r, s.db, op).value)
  {
    hide Apply;
  }

  /** An edit saves its content as a draft and as a revision, and changes no other content. */
  lemma EditIsSaved(r: Rules, db: Db, op: Op)
    requires (op.OpCreateChild? || op.OpUpdateChild? || op.OpUpdatePage?) && Apply(r, db, op).Ok?
    ensures var after := Apply(r, db, op).value;
      if op.OpUpdatePage? then
        && after.page.content == op.content && after.page.version in after.page.revisions
        && after.page.revisions[after.page.version] == op.content && after.children == db.children
      else
        && after.page.content == db.page.content
        && op.id in after.children && after.children[op.id].status.Draft? && after.children[op.id].content == op.childContent
        && after.children[op.id].version in after.children[op.id].revisions
        && after.children[op.id].revisions[after.children[op.id].version] == op.childContent
        && forall other | other != op.id :: other in after.children <==> other in db.children && after.children[other] == db.children[other]
  {
    hide VideoTaken;
  }

  /** No other child has the YouTube id. */
  predicate VideoIsFree(children: map<Id, Child>, id: Id, content: Content) {
    content.youtubeId.Some? ==> forall other | other in children && other != id :: children[other].content.youtubeId != content.youtubeId
  }

  /** An editor's save is accepted exactly if it is based on the latest version, the page is not
      being published and the YouTube id is free; a delete needs the first two only. */
  lemma EditsSucceedExactly(r: Rules, max: nat, s: System, id: Id, expected: Version, content: Content, page: PageContent)
    requires Reachable(r, max, s)
    ensures var children, idle := s.db.children, !Busy(s.db.page.status);
      && (CreateChild(s.db, id, content).Ok? <==> id !in children && VideoIsFree(children, id, content) && idle)
      && (UpdateChild(s.db, id, expected, content).Ok? <==>
            id in children && children[id].version == expected && VideoIsFree(children, id, content) && idle)
      && (DeleteChild(s.db, id, expected).Ok? <==> id in children && children[id].version == expected && idle)
      && (UpdatePage(s.db, expected, page).Ok? <==> s.db.page.version == expected && page.template == s.db.page.content.template && idle)
  {
    hide Reachable, SystemInv, Inv, PageInv, ChildrenInv;
    ReachableHolds(r, max, s);
    SystemHoldsInv(r, s);
    InvParts(r, s.db);
    NoPageRevisionAhead(r, s.db.page, s.db.pageRows);
    if id in s.db.children { ChildIsIdle(s.db, id); }
    hide NamedByManifest;
    assert VideoIsFree(s.db.children, id, content) <==> !VideoTaken(s.db.children, id, content);
  }

  lemma NoPageRevisionAhead(r: Rules, page: Page, rows: Rows)
    requires PageInv(r, page, rows)
    ensures page.version + 1 !in page.revisions
  {
  }

  lemma ChildIsIdle(db: Db, id: Id)
    requires ChildrenInv(db.children, db.childRows) && id in db.children
    ensures var child := db.children[id];
      && !Busy(child.status) && child.version + 1 !in child.revisions
      && !child.status.UnpublishFailed? && (child.status.Published? ==> HasRows(db, id))
  {
    hide VideosUnique;
    assert ChildInv(db.children[id], RowsFor(db.childRows, id));
  }

  /** A child that is deleted stays on show until the next publication, and then is gone. */
  lemma DeletedChildDisappears(r: Rules, max: nat, s: System, id: Id, expected: Version, again: Version)
    requires Reachable(r, max, s) && DeleteChild(s.db, id, expected).Ok?
    ensures var after := DeleteChild(s.db, id, expected).value;
      && RowsFor(after.childRows, id) == RowsFor(s.db.childRows, id)
      && (PublishGroup(r, after, again).Ok? ==> id !in PublishGroup(r, after, again).value.childRows)
  {
    hide Reachable, PublishGroup, Next, DeleteChild, Inv, SystemInv;
    ChildIsDeleted(s.db, id, expected);
    DeleteStep(r, s.db, id, expected);
    DoStep(r, max, s, OpDeleteChild(id, expected));
    NextIsReachable(r, max, s, Do(OpDeleteChild(id, expected)));
    var after := DeleteChild(s.db, id, expected).value;
    if PublishGroup(r, after, again).Ok? { PublishingShowsDrafts(r, max, s.(db := after), again); }
  }

  lemma DeleteStep(r: Rules, db: Db, id: Id, expected: Version)
    ensures Apply(r, db, OpDeleteChild(id, expected)) == DeleteChild(db, id, expected)
  {
    hide DeleteChild;
  }

  lemma ChildIsDeleted(db: Db, id: Id, expected: Version)
    requires DeleteChild(db, id, expected).Ok?
    ensures var after := DeleteChild(db, id, expected).value;
      && RowsFor(after.childRows, id) == RowsFor(db.childRows, id)
      && (id in after.children ==> after.children[id].status.PendingRemoval?)
  {
    hide NamedByManifest;
  }

  /** A Home publication that fails, whatever went on since it started, changes nothing readers
      see and nothing an editor saved, and can be started again at once. */
  lemma FailedHomePublicationRestarts(r: Rules, max: nat, s: System, during: seq<Step>, expected: Version)
    requires Reachable(r, max, s) && StartHomePublish(r, s.db, expected).Ok?
    requires var end := Run(r, max, Next(r, max, s, Do(OpStartHomePublish(expected))), during).db;
      end.page.status.Publishing? && end.page.version == expected + 1
    ensures var end := Run(r, max, Next(r, max, s, Do(OpStartHomePublish(expected))), during).db;
      var failed := FailHomePublish(end, expected + 1, expected + 1);
      && failed.Ok?
      && failed.value.pageRows == s.db.pageRows && failed.value.childRows == s.db.childRows && failed.value.children == s.db.children
      && failed.value.page.content == s.db.page.content && failed.value.page.status.PublishFailed?
      && StartHomePublish(r, failed.value, expected + 1).Ok?
  {
    hide Reachable, SystemInv, Inv, StartHomePublish, FailHomePublish, Run, Next;
    var started := Next(r, max, s, Do(OpStartHomePublish(expected)));
    var end := Run(r, max, started, during);
    StartStep(r, max, s, expected);
    StartKeepsContent(r, s.db, expected);
    NextIsReachable(r, max, s, Do(OpStartHomePublish(expected)));
    ReachableHolds(r, max, s);
    SystemHoldsInv(r, s);
    ReachableHolds(r, max, started);
    DuringKeepsGroup(r, max, started, expected + 1, during);
    StartSucceedsExactly(r, s.db, expected);
    FailureOfFrozen(r, end.db);
    StartSucceedsExactly(r, FailHomePublish(end.db, expected + 1, expected + 1).value, expected + 1);
  }

  lemma FailureOfFrozen(r: Rules, db: Db)
    requires Inv(r, db) && db.page.status.Publishing?
    ensures var v := db.page.version;
      var failed := FailHomePublish(db, v, v);
      && failed.Ok? && Inv(r, failed.value)
      && failed.value.pageRows == db.pageRows && failed.value.childRows == db.childRows && failed.value.children == db.children
      && failed.value.page == db.page.(status := PublishFailed)
  {
    hide Inv;
    FrozenState(r, db);
    FailHomePublishKeeps(r, db, db.page.version);
  }

  // ---------------------------------------------------------------- restoring

  /** Restoring a withdrawn revision leaves every child marked for removal, and a publication
      after it shows the page of that revision without any child. */
  lemma WithdrawnRevisionHasNoChildren(r: Rules, max: nat, s: System, v: Version, expected: Version)
    requires Reachable(r, max, s) && RestoreGroup(r, s.db, v, expected).Ok? && s.db.manifests[v].status.ManifestUnpublished?
    ensures v in s.db.page.revisions
    ensures var restored := RestoreGroup(r, s.db, v, expected).value;
      && restored.children.Keys == s.db.children.Keys
      && (forall id | id in restored.children :: restored.children[id].status.PendingRemoval?)
      && restored.page.content == s.db.page.revisions[v]
      && (PublishGroup(r, restored, expected + 1).Ok? ==>
            var shown := PublishGroup(r, restored, expected + 1).value;
            shown.childRows == map[] && ShowsPage(r, shown.pageRows, s.db.page.revisions[v]))
  {
    hide Reachable, SystemInv, Inv, RestoreGroup, PublishGroup, ShowsPage;
    ReachableHolds(r, max, s);
    SystemHoldsInv(r, s);
    RestoreKeepsContent(r, s.db, v, expected);
    RestoredStatuses(r, s.db, v, expected);
    WithdrawalRemoves(r, s.db, v);
    var restored := RestoreGroup(r, s.db, v, expected).value;
    if PublishGroup(r, restored, expected + 1).Ok? {
      PublishedTables(r, restored, expected + 1);
      LiveRowsShowDrafts(r, restored, PublishGroup(r, restored, expected + 1).value, expected + 2);
    }
  }

  /** The same on the second template, where publishing is started and completed. */
  lemma WithdrawnHomeHasNoChildren(r: Rules, max: nat, s: System, v: Version, expected: Version, during: seq<Step>)
    requires Reachable(r, max, s) && RestoreGroup(r, s.db, v, expected).Ok? && s.db.manifests[v].status.ManifestUnpublished?
    requires var restored := Next(r, max, s, Do(OpRestoreGroup(v, expected)));
      StartHomePublish(r, restored.db, expected + 1).Ok? &&
      var end := Run(r, max, Next(r, max, restored, Do(OpStartHomePublish(expected + 1))), during).db;
      end.page.status.Publishing? && end.page.version == expected + 2
    ensures v in s.db.page.revisions
    ensures var restored := Next(r, max, s, Do(OpRestoreGroup(v, expected)));
      var end := Run(r, max, Next(r, max, restored, Do(OpStartHomePublish(expected + 1))), during).db;
      var shown := CompleteHomePublish(r, end, expected + 2, expected + 2);
      shown.Ok? && shown.value.childRows == map[] && ShowsPage(r, shown.value.pageRows, s.db.page.revisions[v])
  {
    hide Reachable, RestoreGroup, StartHomePublish, CompleteHomePublish, PublishGroup, Run, ShowsPage, Next;
    RestoreStep(r, max, s, v, expected);
    WithdrawnRevisionHasNoChildren(r, max, s, v, expected);
    NextIsReachable(r, max, s, Do(OpRestoreGroup(v, expected)));
    CompletionShowsDrafts(r, max, Next(r, max, s, Do(OpRestoreGroup(v, expected))), during, expected + 1);
  }

  lemma RestoreStep(r: Rules, max: nat, s: System, v: Version, expected: Version)
    requires RestoreGroup(r, s.db, v, expected).Ok?
    ensures Next(r, max, s, Do(OpRestoreGroup(v, expected))) == s.(db := RestoreGroup(r, s.db, v, expected).value)
  {
    hide RestoreGroup;
  }

  /** Restoring a published revision makes drafts of exactly its members, with the content they
      had then, and marks all other children for removal. */
  lemma PublishedRevisionRestoresMembers(r: Rules, max: nat, s: System, v: Version, expected: Version)
    requires Reachable(r, max, s) && RestoreGroup(r, s.db, v, expected).Ok? && s.db.manifests[v].status.ManifestPublished?
    ensures v in s.db.page.revisions
    ensures var restored := RestoreGroup(r, s.db, v, expected).value;
      var items := s.db.manifests[v].manifest.items;
      && restored.children.Keys == s.db.children.Keys && items.Keys <= s.db.children.Keys
      && (forall id | id in restored.children ::
            if id in items then
              && restored.children[id].status.Draft? && items[id].target in s.db.children[id].revisions
              && restored.children[id].content == s.db.children[id].revisions[items[id].target]
            else
              restored.children[id].status.PendingRemoval? && restored.children[id].content == s.db.children[id].content)
      && restored.page.content == s.db.page.revisions[v]
  {
    hide Reachable, SystemInv, Inv, RestoreGroup;
    ReachableHolds(r, max, s);
    SystemHoldsInv(r, s);
    RestoreKeepsContent(r, s.db, v, expected);
    RestoredStatuses(r, s.db, v, expected);
    RestoreSucceedsExactly(r, s.db, v, expected);
  }

  lemma RestoredStatuses(r: Rules, db: Db, v: Version, expected: Version)
    requires RestoreGroup(r, db, v, expected).Ok?
    ensures v in db.manifests
    ensures var restored := RestoreGroup(r, db, v, expected).value;
      var items := db.manifests[v].manifest.items;
      && restored.children.Keys == db.children.Keys && items.Keys <= db.children.Keys
      && forall id | id in db.children ::
           if id in items then
             && items[id].target in db.children[id].revisions
             && restored.children[id].content == db.children[id].revisions[items[id].target]
             && restored.children[id].status == (if items[id].action.Remove? then PendingRemoval else Draft)
           else
             restored.children[id].content == db.children[id].content && restored.children[id].status.PendingRemoval?
  {
    hide RestoreError;
    RestoreMeetsNoErrorOf(db.children, db.manifests[v].manifest.items);
  }

  lemma RestoreMeetsNoErrorOf(children: map<Id, Child>, items: map<Id, Member>)
    ensures RestoreError(children, items).None? ==> SnapshotsExist(children, items)
  {
  }

  /** A withdrawn manifest only removes. */
  lemma WithdrawalRemoves(r: Rules, db: Db, v: Version)
    requires Inv(r, db) && v in db.manifests && db.manifests[v].status.ManifestUnpublished?
    ensures forall id | id in db.manifests[v].manifest.items :: db.manifests[v].manifest.items[id].action.Remove?
  {
    hide PageInv, ChildrenInv, EventsInv, GrantInv, Frozen;
    assert ManifestInv(r, db.page, db.children, v, db.manifests[v]);
    forall id | id in db.manifests[v].manifest.items ensures db.manifests[v].manifest.items[id].action.Remove? {
      assert MemberInv(db.children, id, db.manifests[v].manifest.items[id], db.manifests[v].status);
    }
  }

  // ---------------------------------------------------------------- the first manifest, and withdrawing

  /** The manifest of what was live before there were manifests records exactly that. */
  lemma BaselineRecordsWhatIsLive(r: Rules, max: nat, s: System)
    requires Reachable(r, max, s) && s.db.manifests == map[] && s.db.pageRows != map[]
    ensures CaptureBaseline(r, s.db).Ok?
    ensures var based := CaptureBaseline(r, s.db).value;
      exists v ::
        && Settled(based, v) && ShowsPage(r, s.db.pageRows, s.db.page.revisions[v])
        && based == s.db.(manifests := map[v := based.manifests[v]])
        && var items := based.manifests[v].manifest.items;
          && items.Keys == s.db.childRows.Keys
          && forall id | id in items ::
               && id in s.db.children && !items[id].action.Remove? && items[id].target in s.db.children[id].revisions
               && ShowsChild(s.db.childRows[id], s.db.children[id].revisions[items[id].target])
  {
    hide Reachable, SystemInv, Inv, CaptureBaseline, ShowsPage, ShowsChild;
    ReachableHolds(r, max, s);
    SystemHoldsInv(r, s);
    InvParts(r, s.db);
    BaselineFacts(r, s.db);
    var v := VersionOf(s.db.pageRows);
    var l := RowAtVersion(s.db.pageRows);
    PageRowsShow(r, s.db.page, s.db.pageRows, l);
    BaselineMembersShow(s.db.children, s.db.childRows);
    assert Settled(CaptureBaseline(r, s.db).value, v);
  }

  /** Some row has the version the rows are said to have. */
  lemma RowAtVersion(rows: Rows) returns (l: Locale)
    requires rows != map[]
    ensures l in rows && rows[l].version == VersionOf(rows)
  {
    var some :| some in rows;
    match some {
      case ZhHant => case ZhHans => case En => case Ja => case Ko =>
    }
    l := if ZhHant in rows then ZhHant else if ZhHans in rows then ZhHans else if En in rows then En else if Ja in rows then Ja else Ko;
  }

  lemma BaselineMembersShow(children: map<Id, Child>, childRows: map<Id, Rows>)
    requires ChildrenInv(children, childRows)
    ensures var items := BaselineItems(childRows);
      && items.Keys == childRows.Keys
      && forall id | id in items ::
           && id in children && !items[id].action.Remove? && items[id].target in children[id].revisions
           && ShowsChild(childRows[id], children[id].revisions[items[id].target])
  {
    hide ShowsChild, ChildInv, VideosUnique, VersionOf;
    var items := BaselineItems(childRows);
    forall id | id in items
      ensures id in children && items[id].target in children[id].revisions
      ensures ShowsChild(childRows[id], children[id].revisions[items[id].target])
    {
      var l := RowAtVersion(childRows[id]);
      ChildRowsShow(children, childRows, id, l);
    }
    assert items.Keys == childRows.Keys;
  }

  /** Withdrawing the group hides everything: the page and the children readers saw are
      unpublished with their content kept and recorded, and all other children stay as they are. */
  lemma WithdrawingHidesTheGroup(r: Rules, max: nat, s: System, expected: Version)
    requires Reachable(r, max, s) && UnpublishGroup(r, s.db, expected).Ok?
    ensures var after := UnpublishGroup(r, s.db, expected).value;
      && after.pageRows == map[] && after.childRows == map[]
      && after.page.status.Unpublished? && after.page.content == s.db.page.content && after.page.version == s.db.page.version + 1
      && after.page.live.None?
      && after.children.Keys == s.db.children.Keys
      && (forall id | id in s.db.children ::
            if id in s.db.childRows then
              && after.children[id].status.Unpublished? && after.children[id].content == s.db.children[id].content
              && after.children[id].version == s.db.children[id].version + 1
              && after.children[id].version in after.children[id].revisions
              && after.children[id].revisions[after.children[id].version] == s.db.children[id].content
            else after.children[id] == s.db.children[id])
  {
    hide Reachable, SystemInv, Inv, CaptureBaseline, WithdrawItems, WithdrawMembers, UnpublishGroup;
    ReachableHolds(r, max, s);
    SystemHoldsInv(r, s);
    if r.kind.About? { AboutHasNoBanner(r, s.db); }
    RowsAreOnRecord(r, s.db);
    WithdrawnTables(r, s.db, expected);
    UnpublishGroupRetires(r, s.db, expected);
    WithdrawnChildren(s.db.children, s.db.childRows);
  }

  lemma WithdrawnTables(r: Rules, db: Db, expected: Version)
    requires UnpublishGroup(r, db, expected).Ok?
    ensures var after := UnpublishGroup(r, db, expected).value;
      && after.pageRows == map[] && after.childRows == map[]
      && after.page.status.Unpublished? && after.page.content == db.page.content && after.page.version == db.page.version + 1
      && after.children == WithdrawMembers(db.children, WithdrawItems(db.children, db.childRows))
  {
    hide CaptureBaseline, WithdrawItems, WithdrawMembers;
    BaselineGrows(r, db);
  }

  lemma WithdrawnChildren(children: map<Id, Child>, childRows: map<Id, Rows>)
    requires forall id | id in childRows :: childRows[id] != map[]
    ensures var after := WithdrawMembers(children, WithdrawItems(children, childRows));
      && after.Keys == children.Keys
      && forall id | id in children ::
           if id in childRows then
             && after[id].status.Unpublished? && after[id].content == children[id].content && after[id].version == children[id].version + 1
             && after[id].version in after[id].revisions && after[id].revisions[after[id].version] == children[id].content
           else after[id] == children[id]
  {
  }
}
