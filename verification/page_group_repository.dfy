/** The repository transactions on a page group in their imperative form. Each works on a
    private copy of the tables, statement by statement, and commits the copy at the end or
    returns an error and leaves the tables alone. A restore visits members by id, because there
    the order shows; other loops visit them in no particular order, which covers the order by id
    that the queries ask for. */
module PageGroupRepository {
  import opened ContentModel
  import opened PageGroup
  import opened PageGroupInvariants

  /** The part of a map at the given keys. */
  function Only<V>(m: map<Id, V>, ids: set<Id>): map<Id, V> {
    map id | id in m && id in ids :: m[id]
  }

  lemma OnlyAll<V>(m: map<Id, V>)
    ensures Only(m, m.Keys) == m
  {
  }

  // ---------------------------------------------------------------- loop steps

  lemma CollectStep(children: map<Id, Child>, done: set<Id>, id: Id)
    requires id in children && id !in done
    ensures var before := CollectItems(Only(children, done));
      CollectItems(Only(children, done + {id})) ==
      if children[id].status.Unpublished? then before else before[id := MemberFor(children[id])]
  {
  }

  lemma ReadyStep(r: Rules, children: map<Id, Child>, done: set<Id>, id: Id)
    requires id in children && AllReady(r, Only(children, done))
    requires children[id].status.Unpublished? || children[id].status.PendingRemoval? || ChildReady(r, children[id].content)
    ensures AllReady(r, Only(children, done + {id}))
  {
    var after := Only(children, done + {id});
    forall k | k in after && !after[k].status.Unpublished? && !after[k].status.PendingRemoval?
      ensures ChildReady(r, after[k].content)
    {
      assert k != id ==> k in Only(children, done);
    }
  }

  lemma CollectedMember(children: map<Id, Child>, id: Id)
    requires id in CollectItems(children)
    ensures id in children && CollectItems(children)[id] == MemberFor(children[id])
  {
  }

  lemma BaselineStep(childRows: map<Id, Rows>, done: set<Id>, id: Id)
    requires id in childRows && id !in done
    ensures var before := BaselineItems(Only(childRows, done));
      BaselineItems(Only(childRows, done + {id})) ==
      if childRows[id] == map[] then before
      else before[id := Member(VersionOf(childRows[id]), VersionOf(childRows[id]), Keep)]
  {
  }

  lemma PublishStep(children: map<Id, Child>, items: map<Id, Member>, done: set<Id>, id: Id)
    requires id in children && id in items && id !in done
    ensures PublishMembers(children, Only(items, done + {id})) ==
            PublishMembers(children, Only(items, done))[id := PublishMember(children[id], items[id])]
    ensures MemberRows(children, Only(items, done + {id})) ==
            if items[id].action.Remove? then MemberRows(children, Only(items, done))
            else MemberRows(children, Only(items, done))[id := ChildRowsOf(children[id].content, items[id].target)]
    ensures id in PublishMembers(children, Only(items, done)) && PublishMembers(children, Only(items, done))[id] == children[id]
  {
    hide PublishMember, ChildRowsOf;
  }

  lemma WithdrawStep(children: map<Id, Child>, items: map<Id, Member>, done: set<Id>, id: Id)
    requires id in children && id in items && id !in done
    ensures WithdrawMembers(children, Only(items, done + {id})) ==
            WithdrawMembers(children, Only(items, done))[id := Withdrawn(children[id])]
    ensures id in WithdrawMembers(children, Only(items, done)) && WithdrawMembers(children, Only(items, done))[id] == children[id]
  {
  }

  lemma PublishedStep(children: map<Id, Child>, childRows: map<Id, Rows>, done: set<Id>, id: Id)
    requires id in children && id !in done
    ensures var before := WithdrawItems(Only(children, done), childRows);
      WithdrawItems(Only(children, done + {id}), childRows) ==
      if RowsFor(childRows, id) == map[] then before
      else before[id := Member(children[id].version, children[id].version + 1, Remove)]
  {
  }

  lemma NothingPublished(children: map<Id, Child>, childRows: map<Id, Rows>)
    ensures WithdrawItems(Only(children, {}), childRows) == map[]
  {
  }

  lemma NothingDone(children: map<Id, Child>, items: map<Id, Member>)
    ensures PublishMembers(children, Only(items, {})) == children
    ensures MemberRows(children, Only(items, {})) == map[]
    ensures WithdrawMembers(children, Only(items, {})) == children
  {
  }

  function RestoreChild(child: Child, id: Id, items: map<Id, Member>): Child
    requires id in items ==> items[id].target in child.revisions
  {
    var content := RestoredContent(child, id, items);
    Child(child.version + 1, RestoredStatus(id, items), content, child.revisions[child.version + 1 := content])
  }

  /** The children once those in `done` were restored. */
  ghost predicate RestoredSoFar(before: map<Id, Child>, items: map<Id, Member>, done: set<Id>, children: map<Id, Child>) {
    && children.Keys == before.Keys
    && forall id | id in before ::
         if id in done
         then (id in items ==> items[id].target in before[id].revisions) && children[id] == RestoreChild(before[id], id, items)
         else children[id] == before[id]
  }

  lemma RestoreStep(before: map<Id, Child>, items: map<Id, Member>, done: set<Id>, children: map<Id, Child>, id: Id)
    requires RestoredSoFar(before, items, done, children) && id in before && id !in done
    ensures id in children && children[id] == before[id]
    ensures id in items ==> items[id].target in before[id].revisions ==>
              RestoredSoFar(before, items, done + {id}, children[id := RestoreChild(before[id], id, items)])
    ensures id !in items ==> RestoredSoFar(before, items, done + {id}, children[id := RestoreChild(before[id], id, items)])
  {
  }

  lemma NothingRestored(before: map<Id, Child>, items: map<Id, Member>)
    ensures RestoredSoFar(before, items, {}, before)
  {
  }

  lemma RestoredKeys(before: map<Id, Child>, items: map<Id, Member>, done: set<Id>, children: map<Id, Child>)
    requires RestoredSoFar(before, items, done, children)
    ensures children.Keys == before.Keys
  {
  }

  lemma RestoredAll(before: map<Id, Child>, items: map<Id, Member>, children: map<Id, Child>)
    requires SnapshotsExist(before, items) && RestoredSoFar(before, items, before.Keys, children)
    ensures children == RestoreChildren(before, items)
  {
  }

  /** The members in `done` come before all others, and none of them stopped the restore. */
  ghost predicate PassedInOrder(before: map<Id, Child>, items: map<Id, Member>, done: set<Id>) {
    && done <= items.Keys
    && (forall id | id in done :: MemberError(before, items, id).None?)
    && forall id, other | id in done && other in items && other !in done :: Less(id, other)
  }

  ghost predicate IsNext(items: map<Id, Member>, done: set<Id>, id: Id) {
    && id in items && id !in done
    && forall other | other in items && other !in done :: !Less(other, id)
  }

  /** An id of the map not visited yet, in order. */
  method FollowingById(items: map<Id, Member>, done: set<Id>) returns (next: Id)
    requires done < items.Keys
    ensures IsNext(items, done, next)
  {
    ghost var some :| some in items.Keys && some !in done;
    assert some in items.Keys - done;
    ghost var least := LeastExists(items.Keys - done);
    assert IsNext(items, done, least);
    next :| next in items && next !in done && forall other | other in items && other !in done :: !Less(other, next);
  }

  /** The unique constraint, met at a member's turn, is what `Collides` says. */
  lemma TakenIsCollision(before: map<Id, Child>, items: map<Id, Member>, done: set<Id>, children: map<Id, Child>, id: Id)
    requires RestoredSoFar(before, items, done, children) && PassedInOrder(before, items, done) && IsNext(items, done, id)
    requires OnRecord(before, items, id)
    ensures VideoTaken(children, id, Record(before, items, id)) == Collides(before, items, id)
  {
    forall other | other in before ensures children[other].content == ContentAt(before, items, id, other) {
      if other in done { assert MemberError(before, items, other).None?; }
    }
  }

  lemma ErrorStops(before: map<Id, Child>, items: map<Id, Member>, done: set<Id>, id: Id)
    requires PassedInOrder(before, items, done) && IsNext(items, done, id) && MemberError(before, items, id).Some?
    ensures RestoreError(before, items) == MemberError(before, items, id)
  {
    hide MemberError;
    assert NoErrorBefore(before, items, id);
    forall other | other in items && MemberError(before, items, other) == Some(NotFound) && NoErrorBefore(before, items, other)
      ensures other == id
    {
      LessIsTotal(id, other);
    }
    MemberErrors(before, items, id);
  }

  lemma MemberErrors(before: map<Id, Child>, items: map<Id, Member>, id: Id)
    ensures var error := MemberError(before, items, id); error.None? || error == Some(NotFound) || error == Some(Duplicate)
  {
  }

  lemma PassedAll(before: map<Id, Child>, items: map<Id, Member>)
    requires PassedInOrder(before, items, items.Keys)
    ensures RestoreError(before, items) == if RevisionAhead(before) then Some(Duplicate) else None
    ensures SnapshotsExist(before, items)
    ensures forall id | id in items && id in before :: before[id].version + 1 !in before[id].revisions
  {
    forall id | id in items ensures OnRecord(before, items, id) && before[id].version + 1 !in before[id].revisions {
      assert MemberError(before, items, id).None?;
    }
  }

  lemma NonePassed(before: map<Id, Child>, items: map<Id, Member>)
    ensures PassedInOrder(before, items, {})
  {
  }

  lemma NextIsItem(items: map<Id, Member>, done: set<Id>, id: Id)
    requires IsNext(items, done, id)
    ensures id in items && id !in done
  {
  }

  lemma Passed(before: map<Id, Child>, items: map<Id, Member>, done: set<Id>, id: Id)
    requires PassedInOrder(before, items, done) && IsNext(items, done, id) && MemberError(before, items, id).None?
    ensures PassedInOrder(before, items, done + {id})
  {
    hide MemberError;
    forall other | other in items && other !in done && other != id ensures Less(id, other) { LessIsTotal(id, other); }
  }

  // ---------------------------------------------------------------- what the helpers give

  ghost predicate AllCollect(children: map<Id, Child>) {
    forall id | id in children :: Collects(children[id].status)
  }

  lemma ValidChildrenCollect(r: Rules, db: Db)
    requires Inv(r, db)
    ensures AllCollect(db.children)
  {
  }

  /** A manifest that loads is a collection over the children as they are. */
  ghost predicate FreshManifest(r: Rules, db: Db) {
    forall sha | LoadPending(r, db, db.page.version, sha).Ok? ::
      LoadPending(r, db, db.page.version, sha).value.items == CollectItems(db.children)
  }

  lemma ValidManifestIsFresh(r: Rules, db: Db)
    requires Inv(r, db)
    ensures FreshManifest(r, db)
  {
    forall sha | LoadPending(r, db, db.page.version, sha).Ok?
      ensures LoadPending(r, db, db.page.version, sha).value.items == CollectItems(db.children)
    {
      assert ManifestInv(r, db.page, db.children, db.page.version, db.manifests[db.page.version]);
    }
  }

  lemma BaselineGives(r: Rules, db: Db)
    ensures var based := CaptureBaseline(r, db); based.Ok? ==> based.value == db.(manifests := based.value.manifests)
  {
  }

  lemma CollectGives(r: Rules, db: Db, target: Version)
    ensures var m := Collect(r, db, target); m.Ok? ==> m.value == Manifest(db.page.version, target, CollectItems(db.children))
  {
  }

  lemma InsertGives(r: Rules, db: Db, m: Manifest, status: ManifestStatus)
    ensures var recorded := InsertManifest(r, db, m, status);
      recorded.Ok? ==> recorded.value == db.(manifests := db.manifests[m.target := ManifestRow(m, r.digest(m), status)])
  {
  }

  lemma LoadPendingGives(r: Rules, db: Db, sha: Option<nat>)
    ensures LoadPending(r, db, db.page.version, sha).Ok? ==> db.page.version in db.manifests
  {
  }

  lemma GoLiveGives(r: Rules, db: Db, m: Manifest, live: Option<Banner>)
    ensures var gone := GoLive(r, db, m, live);
      gone.Ok? ==> gone.value.manifests == db.manifests && gone.value.outbox == db.outbox && gone.value.page.live == live
  {
  }

  lemma WithdrawItemsGive(children: map<Id, Child>, childRows: map<Id, Rows>)
    ensures forall id | id in WithdrawItems(children, childRows) ::
      id in children && WithdrawItems(children, childRows)[id] == Member(children[id].version, children[id].version + 1, Remove)
  {
  }

  class Repository {
    const rules: Rules
    var db: Db

    ghost predicate Valid()
      reads this
    {
      Inv(rules, db)
    }

    /** A transaction either committed exactly what its specification says, or reports the
        specification's error and changed nothing. */
    ghost predicate Settles(result: Result<()>, before: Db, expected: Result<Db>)
      reads this
    {
      match expected
      case Ok(next) => result == Ok(()) && db == next
      case Err(error) => result == Err(error) && db == before
    }

    constructor (rules: Rules, page: Page)
      requires PageInv(rules, page, map[]) && page.live.None? && !page.status.Publishing?
      ensures this.rules == rules && db == Db(page, map[], map[], map[], map[], map[]) && Valid()
    {
      this.rules := rules;
      this.db := Db(page, map[], map[], map[], map[], map[]);
    }

    // -------------------------------------------------------------- edits

    method CreateContent(id: Id, content: Content) returns (result: Result<()>)
      requires Valid()
      modifies this
      ensures Valid() && Settles(result, old(db), CreateChild(old(db), id, content))
    {
      var tx := db;
      if id in tx.children { return Err(Duplicate); }
      if VideoTaken(tx.children, id, content) { return Err(Conflict); }
      tx := tx.(children := tx.children[id := Child(1, Draft, content, map[1 := content])]);
      var page :- Touch(tx.page);
      CreateChildKeeps(rules, db, id, content);
      db := tx.(page := page);
      return Ok(());
    }

    method UpdateContent(id: Id, expected: Version, content: Content) returns (result: Result<()>)
      requires Valid()
      modifies this
      ensures Valid() && Settles(result, old(db), UpdateChild(old(db), id, expected, content))
    {
      var tx := db;
      var _ :- LockChild(tx, id, expected);
      if VideoTaken(tx.children, id, content) { return Err(Conflict); }
      var child := tx.children[id].(content := content, status := Draft, version := tx.children[id].version + 1);
      if child.version in child.revisions { return Err(Duplicate); }
      tx := tx.(children := tx.children[id := child.(revisions := child.revisions[child.version := content])]);
      var page :- Touch(tx.page);
      UpdateChildKeeps(rules, db, id, expected, content);
      db := tx.(page := page);
      return Ok(());
    }

    method DeleteInTransaction(db: Db, id: Id, expected: Version) returns (result: Result<Db>)
      ensures result == DeleteChild(db, id, expected)
    {
      var tx := db;
      var _ :- LockChild(tx, id, expected);
      var child := tx.children[id];
      var isNamed := IsNamed(tx.manifests, id);
      if RowsFor(tx.childRows, id) != map[] || isNamed {
        var page :- Touch(tx.page);
        child := child.(status := PendingRemoval, version := child.version + 1);
        if child.version in child.revisions { return Err(Duplicate); }
        tx := tx.(page := page, children := tx.children[id := child.(revisions := child.revisions[child.version := child.content])]);
      } else {
        if child.status.Published? || child.status.UnpublishFailed? { return Err(Conflict); }
        var page :- Touch(tx.page);
        tx := tx.(page := page, childRows := tx.childRows - {id});
        tx := tx.(children := tx.children - {id});
      }
      return Ok(tx);
    }

    method DeleteContent(id: Id, expected: Version) returns (result: Result<()>)
      requires Valid()
      modifies this
      ensures Valid() && Settles(result, old(db), DeleteChild(old(db), id, expected))
    {
      hide DeleteChild;
      var tx :- DeleteInTransaction(db, id, expected);
      DeleteChildKeeps(rules, db, id, expected);
      db := tx;
      return Ok(());
    }

    /** hasPageGroupManifestState */
    method IsNamed(manifests: map<Version, ManifestRow>, id: Id) returns (found: bool)
      ensures found == NamedByManifest(manifests, id)
    {
      var done: set<Version> := {};
      while done != manifests.Keys
        invariant done <= manifests.Keys
        invariant forall v | v in done :: id !in manifests[v].manifest.items
        decreases manifests.Keys - done
      {
        var v := Following(manifests.Keys, done);
        if id in manifests[v].manifest.items { return true; }
        done := done + {v};
      }
      return false;
    }

    method UpdateHomeOrAbout(expected: Version, content: PageContent) returns (result: Result<()>)
      requires Valid()
      modifies this
      ensures Valid() && Settles(result, old(db), UpdatePage(old(db), expected, content))
    {
      hide Inv;
      var tx := db;
      var _ :- Lock(tx.page.version, tx.page.status, expected);
      if content.template != tx.page.content.template { return Err(Invalid); }
      var page := tx.page.(content := content, status := Draft, version := tx.page.version + 1);
      if page.version in page.revisions { return Err(Duplicate); }
      UpdatePageKeeps(rules, db, expected, content);
      db := tx.(page := page.(revisions := page.revisions[page.version := content]));
      return Ok(());
    }

    // -------------------------------------------------------------- manifests

    method CollectGroupManifest(tx: Db, target: Version) returns (result: Result<Manifest>)
      ensures result.Ok? <==> Collect(rules, tx, target).Ok?
      ensures result.Ok? || (forall id | id in tx.children :: Collects(tx.children[id].status)) ==> result == Collect(rules, tx, target)
      ensures result.Err? ==> result.error.Conflict? || result.error.NotPublishable?
    {
      var items: map<Id, Member> := map[];
      var done: set<Id> := {};
      while done != tx.children.Keys
        invariant done <= tx.children.Keys
        invariant AllReady(rules, Only(tx.children, done))
        invariant forall id | id in done :: Collects(tx.children[id].status)
        invariant items == CollectItems(Only(tx.children, done))
        decreases tx.children.Keys - done
      {
        var id := Following(tx.children.Keys, done);
        var child := tx.children[id];
        if !Collects(child.status) { return Err(Conflict); }
        CollectStep(tx.children, done, id);
        if !child.status.Unpublished? {
          if !child.status.PendingRemoval? && !ChildReady(rules, child.content) { return Err(NotPublishable); }
          items := items[id := MemberFor(child)];
        }
        ReadyStep(rules, tx.children, done, id);
        done := done + {id};
      }
      OnlyAll(tx.children);
      return Ok(Manifest(tx.page.version, target, items));
    }

    method InsertGroupManifest(tx: Db, m: Manifest, status: ManifestStatus) returns (result: Result<Db>)
      ensures result == InsertManifest(rules, tx, m, status)
    {
      if !ValidManifest(m) { return Err(Invalid); }
      if m.target in tx.manifests { return Err(Duplicate); }
      return Ok(tx.(manifests := tx.manifests[m.target := ManifestRow(m, rules.digest(m), status)]));
    }

    method CapturePublishedBaseline(tx: Db) returns (result: Result<Db>)
      ensures result == CaptureBaseline(rules, tx)
    {
      if tx.manifests != map[] || tx.pageRows == map[] { return Ok(tx); }
      if !Uniform(tx.pageRows) { return Err(Conflict); }
      var items: map<Id, Member> := map[];
      var done: set<Id> := {};
      while done != tx.childRows.Keys
        invariant done <= tx.childRows.Keys
        invariant forall id | id in done :: Uniform(tx.childRows[id])
        invariant items == BaselineItems(Only(tx.childRows, done))
        decreases tx.childRows.Keys - done
      {
        var id := Following(tx.childRows.Keys, done);
        var rows := tx.childRows[id];
        BaselineStep(tx.childRows, done, id);
        if rows != map[] {
          if !Uniform(rows) { return Err(Conflict); }
          items := items[id := Member(VersionOf(rows), VersionOf(rows), Keep)];
        }
        done := done + {id};
      }
      OnlyAll(tx.childRows);
      var v := VersionOf(tx.pageRows);
      result := InsertGroupManifest(tx, Manifest(v, v, items), ManifestPublished);
    }

    /** validateGroupManifestChildren */
    method ValidateMembers(children: map<Id, Child>, items: map<Id, Member>) returns (current: bool)
      ensures current == MembersCurrent(children, items)
    {
      var done: set<Id> := {};
      while done != items.Keys
        invariant done <= items.Keys
        invariant forall id | id in done :: id in children && MemberCurrent(children[id], items[id])
        decreases items.Keys - done
      {
        var id := Following(items.Keys, done);
        if id !in children || !MemberCurrent(children[id], items[id]) { return false; }
        done := done + {id};
      }
      return true;
    }

    // -------------------------------------------------------------- going live

    /** The loop over members that publishing on either template runs, after the old public
        rows were deleted: new status and version, rows, and a revision for what is new. */
    method PublishMembersOf(tx: Db, items: map<Id, Member>) returns (result: Result<Db>)
      requires items == CollectItems(tx.children) && tx.childRows == map[]
      ensures result ==
        if RevisionClash(tx.children, items) then Err(Duplicate)
        else Ok(tx.(children := PublishMembers(tx.children, items), childRows := MemberRows(tx.children, items)))
    {
      hide CollectItems, PublishMembers, MemberRows;
      var children, rows := tx.children, tx.childRows;
      var done: set<Id> := {};
      NothingDone(tx.children, items);
      while done != items.Keys
        invariant done <= items.Keys
        invariant children == PublishMembers(tx.children, Only(items, done))
        invariant rows == MemberRows(tx.children, Only(items, done))
        invariant forall id | id in done :: id in tx.children && (items[id].action.Publish? ==> items[id].target !in tx.children[id].revisions)
        decreases items.Keys - done
      {
        var id := Following(items.Keys, done);
        CollectedMember(tx.children, id);
        PublishStep(tx.children, items, done, id);
        var m := items[id];
        var child := children[id];
        match m.action {
          case Keep =>
            if child.version == m.source { child := child.(status := Published); }
          case Publish =>
            if child.version != m.source { return Err(Precondition); }
            child := child.(status := Published, version := m.target);
          case Remove =>
            if child.version != m.source { return Err(Precondition); }
            child := child.(status := Unpublished, version := m.target);
        }
        if !m.action.Remove? {
          rows := rows[id := ChildRowsOf(child.content, child.version)];
        }
        if m.action.Publish? {
          if child.version in child.revisions { return Err(Duplicate); }
          child := child.(revisions := child.revisions[child.version := child.content]);
        }
        children := children[id := child];
        done := done + {id};
      }
      OnlyAll(items);
      return Ok(tx.(children := children, childRows := rows));
    }

    /** Page and members live under manifest `m`. */
    method WriteLive(tx: Db, m: Manifest, banner: Option<Banner>) returns (result: Result<Db>)
      requires m.items == CollectItems(tx.children)
      ensures result == GoLive(rules, tx, m, banner)
    {
      var live := tx.(pageRows := map[], childRows := map[]);
      var page := tx.page.(status := Published, version := m.target);
      live := live.(page := page, pageRows := PageRowsOf(rules, page.content, m.target));
      live :- PublishMembersOf(live, m.items);
      page := page.(live := banner);
      if page.version in page.revisions { return Err(Duplicate); }
      live := live.(page := page.(revisions := page.revisions[page.version := page.content]));
      return Ok(live);
    }

    method PublishInTransaction(db: Db, expected: Version) returns (result: Result<Db>)
      requires AllCollect(db.children)
      ensures result == PublishGroup(rules, db, expected)
    {
      hide CollectItems, CaptureBaseline, Collect, InsertManifest, GoLive, RetireBanner;
      var tx := db;
      var _ :- Lock(tx.page.version, tx.page.status, expected);
      if (rules.kind.Home? && !tx.page.content.template.HomeV1?) || !PageReady(rules, tx.page.content) { return Err(NotPublishable); }
      BaselineGives(rules, tx);
      tx :- CapturePublishedBaseline(tx);
      CollectGives(rules, tx, expected + 1);
      var m :- CollectGroupManifest(tx, expected + 1);
      InsertGives(rules, tx, m, ManifestPublished);
      tx :- InsertGroupManifest(tx, m, ManifestPublished);
      tx :- WriteLive(tx, m, tx.page.live);
      tx := DropBanner(tx);
      return Ok(tx);
    }

    /** Drop the recorded banner, if there is one, and queue the revocation of its grant. */
    method DropBanner(db: Db) returns (tx: Db)
      ensures tx == RetireBanner(rules, db)
    {
      tx := db;
      if rules.kind.Home? && tx.page.live.Some? {
        var banner := tx.page.live.value;
        tx := tx.(page := tx.page.(live := None));
        if RevokeKey(banner.grant) !in tx.outbox {
          tx := tx.(outbox := tx.outbox[RevokeKey(banner.grant) := Event(Waiting, 0, RevokePayload(banner.asset, banner.grant))]);
        }
      }
    }

    method PublishPageGroup(expected: Version) returns (result: Result<()>)
      requires Valid()
      modifies this
      ensures Valid() && Settles(result, old(db), PublishGroup(rules, old(db), expected))
    {
      hide PublishGroup;
      ValidChildrenCollect(rules, db);
      var tx :- PublishInTransaction(db, expected);
      PublishGroupKeeps(rules, db, expected);
      db := tx;
      return Ok(());
    }

    method StartHomeInTransaction(db: Db, expected: Version) returns (result: Result<Db>)
      requires AllCollect(db.children)
      ensures result == StartHomePublish(rules, db, expected)
    {
      hide CollectItems, CaptureBaseline, Collect, InsertManifest;
      var tx := db;
      var _ :- Lock(tx.page.version, tx.page.status, expected);
      var content := tx.page.content;
      if !rules.kind.Home? || !content.template.HomeV2? || content.banner == "" || !PageReady(rules, content) {
        return Err(NotPublishable);
      }
      BaselineGives(rules, tx);
      tx :- CapturePublishedBaseline(tx);
      CollectGives(rules, tx, expected + 1);
      var m :- CollectGroupManifest(tx, expected + 1);
      InsertGives(rules, tx, m, ManifestPending);
      tx :- InsertGroupManifest(tx, m, ManifestPending);
      tx := tx.(page := tx.page.(status := Publishing, version := expected + 1));
      var key := PublishKey(expected + 1);
      if key in tx.outbox { return Err(Duplicate); }
      tx := tx.(outbox := tx.outbox[key := Event(Waiting, 0, PublishPayload(content.banner, Some(rules.digest(m)), expected + 1))]);
      return Ok(tx);
    }

    method StartHomePublication(expected: Version) returns (result: Result<()>)
      requires Valid()
      modifies this
      ensures Valid() && Settles(result, old(db), StartHomePublish(rules, old(db), expected))
    {
      hide StartHomePublish;
      ValidChildrenCollect(rules, db);
      var tx :- StartHomeInTransaction(db, expected);
      StartHomePublishKeeps(rules, db, expected);
      db := tx;
      return Ok(());
    }

    /** The completion of the publication of version `v`: what is already delivered stays as
        it is, and anything that moved since the manifest was frozen makes it stale. */
    method CompleteInTransaction(db: Db, v: Version) returns (result: Result<Db>)
      requires FreshManifest(rules, db)
      ensures result == CompleteHomePublish(rules, db, v, v)
    {
      hide CollectItems, GoLive, MembersCurrent, LoadPending;
      var key := PublishKey(v);
      if key !in db.outbox || !db.outbox[key].payload.PublishPayload? { return Err(NotFound); }
      if db.outbox[key].status.Delivered? { return Ok(db); }
      var payload := db.outbox[key].payload;
      if !db.page.status.Publishing? || db.page.version != payload.version || !db.page.content.template.HomeV2? { return Err(Stale); }
      var m :- LoadPending(rules, db, db.page.version, payload.sha);
      if db.page.content.banner != payload.asset { return Err(Stale); }
      var current := ValidateMembers(db.children, m.items);
      if !current { return Err(Stale); }
      var previous := db.page.live;
      GoLiveGives(rules, db, m, Some(Banner(payload.asset, v, db.page.version)));
      LoadPendingGives(rules, db, payload.sha);
      var tx :- WriteLive(db, m, Some(Banner(payload.asset, v, db.page.version)));
      tx := tx.(manifests := tx.manifests[db.page.version := tx.manifests[db.page.version].(status := ManifestPublished)]);
      tx := tx.(outbox := tx.outbox[key := tx.outbox[key].(status := Delivered)]);
      if previous.Some? && previous.value.grant != v && RevokeKey(previous.value.grant) !in tx.outbox {
        var revoke := Event(Waiting, 0, RevokePayload(previous.value.asset, previous.value.grant));
        tx := tx.(outbox := tx.outbox[RevokeKey(previous.value.grant) := revoke]);
      }
      return Ok(tx);
    }

    method CompleteHomePublication(v: Version) returns (result: Result<()>)
      requires Valid()
      modifies this
      ensures Valid() && Settles(result, old(db), CompleteHomePublish(rules, old(db), v, v))
    {
      hide CompleteHomePublish, FreshManifest;
      ValidManifestIsFresh(rules, db);
      var tx :- CompleteInTransaction(db, v);
      CompleteHomePublishKeeps(rules, db, v);
      db := tx;
      return Ok(());
    }

    // -------------------------------------------------------------- unpublishing

    method UnpublishInTransaction(db: Db, expected: Version) returns (result: Result<Db>)
      ensures result == UnpublishGroup(rules, db, expected)
    {
      hide CaptureBaseline, Withdraw;
      var _ :- Lock(db.page.version, db.page.status, expected);
      if db.pageRows == map[] { return Err(NotPublishable); }
      var tx :- CapturePublishedBaseline(db);
      result := WithdrawInTransaction(tx);
    }

    method WithdrawInTransaction(db: Db) returns (result: Result<Db>)
      ensures result == Withdraw(rules, db)
    {
      hide InsertManifest, RetireBanner, WithdrawMembers, WithdrawItems;
      var items := CollectPublished(db);
      var m := Manifest(db.page.version, db.page.version + 1, items);
      InsertGives(rules, db, m, ManifestUnpublished);
      var tx :- InsertGroupManifest(db, m, ManifestUnpublished);
      WithdrawItemsGive(db.children, db.childRows);
      var children :- HideMembers(tx.children, items);
      var page := tx.page.(status := Unpublished, version := m.target);
      if page.version in page.revisions { return Err(Duplicate); }
      page := page.(revisions := page.revisions[page.version := page.content]);
      tx := tx.(page := page, children := children, pageRows := map[], childRows := map[]);
      tx := DropBanner(tx);
      return Ok(tx);
    }

    /** The children readers see, each to be removed. */
    method CollectPublished(db: Db) returns (items: map<Id, Member>)
      ensures items == WithdrawItems(db.children, db.childRows)
    {
      hide WithdrawItems;
      items := map[];
      var done: set<Id> := {};
      NothingPublished(db.children, db.childRows);
      while done != db.children.Keys
        invariant done <= db.children.Keys
        invariant items == WithdrawItems(Only(db.children, done), db.childRows)
        decreases db.children.Keys - done
      {
        var id := Following(db.children.Keys, done);
        PublishedStep(db.children, db.childRows, done, id);
        if RowsFor(db.childRows, id) != map[] {
          items := items[id := Member(db.children[id].version, db.children[id].version + 1, Remove)];
        }
        done := done + {id};
      }
      OnlyAll(db.children);
    }

    method HideMembers(before: map<Id, Child>, items: map<Id, Member>) returns (result: Result<map<Id, Child>>)
      requires forall id | id in items :: id in before && items[id] == Member(before[id].version, before[id].version + 1, Remove)
      ensures result ==
        if exists id | id in items :: items[id].target in before[id].revisions then Err(Duplicate)
        else Ok(WithdrawMembers(before, items))
    {
      var children := before;
      var done: set<Id> := {};
      NothingDone(before, items);
      while done != items.Keys
        invariant done <= items.Keys
        invariant children == WithdrawMembers(before, Only(items, done))
        invariant forall id | id in done :: items[id].target !in before[id].revisions
        decreases items.Keys - done
      {
        var id := Following(items.Keys, done);
        WithdrawStep(before, items, done, id);
        var child := children[id];
        if child.version != items[id].source { return Err(Precondition); }
        child := child.(status := Unpublished, version := items[id].target);
        if child.version in child.revisions { return Err(Duplicate); }
        children := children[id := child.(revisions := child.revisions[child.version := child.content])];
        done := done + {id};
      }
      OnlyAll(items);
      return Ok(children);
    }

    method UnpublishPageGroup(expected: Version) returns (result: Result<()>)
      requires Valid()
      modifies this
      ensures Valid() && Settles(result, old(db), UnpublishGroup(rules, old(db), expected))
    {
      hide UnpublishGroup;
      var tx :- UnpublishInTransaction(db, expected);
      UnpublishGroupKeeps(rules, db, expected);
      db := tx;
      return Ok(());
    }

    // -------------------------------------------------------------- restoring

    /** The two loops of a restore: first the members by id, from their recorded revisions;
        then every other child, marked for removal. */
    method RestoreMembers(before: map<Id, Child>, items: map<Id, Member>) returns (result: Result<map<Id, Child>>)
      ensures result == match RestoreError(before, items) case Some(error) => Err(error) case None => Ok(RestoreChildren(before, items))
    {
      hide RestoredSoFar, RestoreChildren, RestoreError, PassedInOrder, IsNext, Collides, VideoTaken;
      var children := before;
      var done: set<Id> := {};
      NothingRestored(before, items);
      NonePassed(before, items);
      while done != items.Keys
        invariant done <= items.Keys
        invariant PassedInOrder(before, items, done)
        invariant RestoredSoFar(before, items, done, children)
        decreases items.Keys - done
      {
        var id := FollowingById(items, done);
        NextIsItem(items, done, id);
        RestoredKeys(before, items, done, children);
        if id !in children {
          ErrorStops(before, items, done, id);
          return Err(NotFound);
        }
        RestoreStep(before, items, done, children, id);
        if items[id].target !in children[id].revisions {
          ErrorStops(before, items, done, id);
          return Err(NotFound);
        }
        var child := children[id];
        var snapshot := child.revisions[items[id].target];
        TakenIsCollision(before, items, done, children, id);
        if VideoTaken(children, id, snapshot) || child.version + 1 in child.revisions {
          ErrorStops(before, items, done, id);
          return Err(Duplicate);
        }
        child := child.(content := snapshot);
        child := child.(status := if items[id].action.Remove? then PendingRemoval else Draft, version := child.version + 1);
        children := children[id := child.(revisions := child.revisions[child.version := child.content])];
        Passed(before, items, done, id);
        done := done + {id};
      }
      PassedAll(before, items);
      children :- RemoveOthers(before, items, children);
      RestoredAll(before, items, children);
      return Ok(children);
    }

    method RemoveOthers(before: map<Id, Child>, items: map<Id, Member>, members: map<Id, Child>) returns (result: Result<map<Id, Child>>)
      requires SnapshotsExist(before, items) && RestoredSoFar(before, items, items.Keys, members)
      requires forall id | id in items && id in before :: before[id].version + 1 !in before[id].revisions
      ensures if RevisionAhead(before) then result == Err(Duplicate)
              else result.Ok? && RestoredSoFar(before, items, before.Keys, result.value)
    {
      hide RestoredSoFar;
      var children := members;
      var done := items.Keys;
      while done != before.Keys
        invariant items.Keys <= done <= before.Keys
        invariant RestoredSoFar(before, items, done, children)
        invariant forall id | id in done :: before[id].version + 1 !in before[id].revisions
        decreases before.Keys - done
      {
        var id := Following(before.Keys, done);
        RestoreStep(before, items, done, children, id);
        var child := children[id].(status := PendingRemoval, version := children[id].version + 1);
        if child.version in child.revisions { return Err(Duplicate); }
        children := children[id := child.(revisions := child.revisions[child.version := child.content])];
        done := done + {id};
      }
      return Ok(children);
    }

    method RestoreInTransaction(db: Db, revision: Version, expected: Version) returns (result: Result<Db>)
      ensures result == RestoreGroup(rules, db, revision, expected)
    {
      hide RestoreChildren, RestoreError;
      var _ :- Lock(db.page.version, db.page.status, expected);
      if revision !in db.manifests || revision !in db.page.revisions { return Err(NotFound); }
      var row := db.manifests[revision];
      if !row.status.ManifestPublished? && !row.status.ManifestUnpublished? { return Err(NotFound); }
      if !ValidManifest(row.manifest) || rules.digest(row.manifest) != row.sha { return Err(Invalid); }
      var children :- RestoreMembers(db.children, row.manifest.items);
      var page := db.page.(content := db.page.revisions[revision], status := Draft, version := db.page.version + 1);
      if page.version in page.revisions { return Err(Duplicate); }
      return Ok(db.(children := children, page := page.(revisions := page.revisions[page.version := page.content])));
    }

    method RestorePageGroup(revision: Version, expected: Version) returns (result: Result<()>)
      requires Valid()
      modifies this
      ensures Valid() && Settles(result, old(db), RestoreGroup(rules, old(db), revision, expected))
    {
      hide RestoreGroup;
      var tx :- RestoreInTransaction(db, revision, expected);
      RestoreGroupKeeps(rules, db, revision, expected);
      db := tx;
      return Ok(());
    }
  }
}
