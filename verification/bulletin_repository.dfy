/** The bulletin transactions in their imperative form, each on a private copy of the tables
    that it commits at the end, and each equal to its specification. */
module BulletinRepository {
  import opened ContentModel
  import opened Bulletins
  import opened BulletinInvariants

  class Repository {
    var tables: Tables

    ghost predicate Valid()
      reads this
    {
      Inv(tables)
    }

    ghost predicate Settles(result: Result<()>, before: Tables, expected: Result<Tables>)
      reads this
    {
      match expected
      case Ok(next) => result == Ok(()) && tables == next
      case Err(error) => result == Err(error) && tables == before
    }

    constructor ()
      ensures Valid() && tables == Tables(map[], map[], map[], map[], {})
    {
      tables := Tables(map[], map[], map[], map[], {});
    }

    /** The common end of every edit: version, revision, commit. */
    method FinishDraft(tx: Tables, id: Id, issue: Issue) returns (result: Result<Tables>)
      ensures result == Finish(tx, id, issue)
    {
      var bumped := issue.(version := issue.version + 1);
      if bumped.version in bumped.revisions { return Err(Duplicate); }
      bumped := bumped.(revisions := bumped.revisions[bumped.version := SnapshotOf(bumped)]);
      return Ok(tx.(issues := tx.issues[id := bumped]));
    }

    method NewIssue(id: Id, number: nat, date: Date) returns (result: Result<()>)
      requires Valid()
      modifies this
      ensures Valid() && Settles(result, old(tables), CreateIssue(old(tables), id, number, date))
    {
      if number < 1 { return Err(Invalid); }
      if id in tables.used { return Err(Duplicate); }
      if Taken(tables.issues, id, Some(number), date) { return Err(Conflict); }
      var tx := tables.(used := tables.used + {id});
      tx := tx.(issues := tx.issues[id := Issue(Some(number), date, Draft, 1, NotRequested, map[], map[])]);
      CreateIssueKeeps(tables, id, number, date);
      tables := tx;
      return Ok(());
    }

    method EditMetadata(id: Id, expected: Version, number: nat, date: Date) returns (result: Result<()>)
      requires Valid()
      modifies this
      ensures Valid() && Settles(result, old(tables), UpdateIssue(old(tables), id, expected, number, date))
    {
      hide Inv, Finish, Taken;
      if number < 1 { return Err(Invalid); }
      var issue :- LockIssue(tables, id, expected, Conflict);
      var blocked := AnyBlocks(issue.editions);
      if blocked { return Err(Conflict); }
      if Taken(tables.issues, id, Some(number), date) { return Err(Conflict); }
      var tx :- FinishDraft(tables, id, issue.(number := Some(number), date := date));
      UpdateIssueKeeps(tables, id, expected, number, date);
      tables := tx;
      return Ok(());
    }

    method AnyBlocks(editions: map<Locale, Edition>) returns (blocked: bool)
      ensures blocked <==> exists l | l in editions :: BlocksMetadata(editions[l])
    {
      var done: set<Locale> := {};
      while done != editions.Keys
        invariant done <= editions.Keys
        invariant forall l | l in done :: !BlocksMetadata(editions[l])
        decreases editions.Keys - done
      {
        var l := Following(editions.Keys, done);
        if BlocksMetadata(editions[l]) { return true; }
        done := done + {l};
      }
      return false;
    }

    /** INSERT … ON CONFLICT DO UPDATE of one edition. */
    method Upsert(editions: map<Locale, Edition>, l: Locale, upload: Upload) returns (after: map<Locale, Edition>)
      ensures after == editions[l := Uploaded(if l in editions then Some(editions[l]) else None, upload)]
    {
      if l !in editions { return editions[l := Edition(upload.text, upload.asset, Draft, None, None, None)]; }
      var edition := editions[l];
      if edition.status.Published? {
        edition := edition.(retiringAsset := Some(edition.asset), retiringGrant := edition.grant);
      }
      after := editions[l := edition.(text := upload.text, asset := upload.asset, status := Draft)];
    }

    method SaveVersion(id: Id, l: Locale, expected: Version, upload: Upload) returns (result: Result<()>)
      requires Valid()
      modifies this
      ensures Valid() && Settles(result, old(tables), PutVersion(old(tables), id, l, expected, upload))
    {
      hide Inv, Finish, Uploaded;
      if l !in EDITIONS { return Err(Invalid); }
      var issue :- LockIssue(tables, id, expected, NotPublishable);
      if l in issue.editions && (issue.editions[l].status.Unpublishing? || issue.editions[l].status.UnpublishFailed?) {
        return Err(NotPublishable);
      }
      var editions := Upsert(issue.editions, l, upload);
      var tx :- FinishDraft(tables, id, issue.(status := Draft, editions := editions));
      PutVersionKeeps(tables, id, l, expected, upload);
      tables := tx;
      return Ok(());
    }

    method RenameVersion(id: Id, l: Locale, expected: Version, text: string) returns (result: Result<()>)
      requires Valid()
      modifies this
      ensures Valid() && Settles(result, old(tables), UpdateVersion(old(tables), id, l, expected, text))
    {
      hide Inv, Finish;
      if l !in EDITIONS { return Err(Invalid); }
      var issue :- LockIssue(tables, id, expected, Conflict);
      if l !in issue.editions || !Editable(issue.editions[l]) { return Err(Conflict); }
      issue := issue.(editions := issue.editions[l := issue.editions[l].(text := text, status := Draft)]);
      var tx :- FinishDraft(tables, id, issue.(status := Draft));
      UpdateVersionKeeps(tables, id, l, expected, text);
      tables := tx;
      return Ok(());
    }

    method DropVersion(id: Id, l: Locale, expected: Version) returns (result: Result<()>)
      requires Valid()
      modifies this
      ensures Valid() && Settles(result, old(tables), DeleteVersion(old(tables), id, l, expected))
    {
      hide Inv, Finish;
      if l !in EDITIONS { return Err(Invalid); }
      var issue :- LockIssue(tables, id, expected, Conflict);
      if l !in issue.editions { return Err(NotFound); }
      if !Editable(issue.editions[l]) { return Err(Conflict); }
      issue := issue.(editions := issue.editions - {l});
      var tx :- FinishDraft(tables, id, issue.(status := Draft));
      DeleteVersionKeeps(tables, id, l, expected);
      tables := tx;
      return Ok(());
    }

    /** The loop over a snapshot's editions, after the editions it lacks were deleted. */
    method RestoreEditions(editions: map<Locale, Edition>, uploads: map<Locale, Upload>) returns (after: map<Locale, Edition>)
      ensures after == RestoredEditions(editions, uploads)
    {
      after := map l | l in editions && l in uploads :: editions[l];
      var done: set<Locale> := {};
      while done != uploads.Keys
        invariant done <= uploads.Keys
        invariant after.Keys == done + (editions.Keys * uploads.Keys)
        invariant forall l | l in done :: after[l] == Uploaded(if l in editions then Some(editions[l]) else None, uploads[l])
        invariant forall l | l in after && l !in done :: l in editions && after[l] == editions[l]
        decreases uploads.Keys - done
      {
        var l := Following(uploads.Keys, done);
        after := Upsert(after, l, uploads[l]);
        done := done + {l};
      }
    }

    method RestoreRevision(id: Id, revision: Version, expected: Version) returns (result: Result<()>)
      requires Valid()
      modifies this
      ensures Valid() && Settles(result, old(tables), RestoreIssueRevision(old(tables), id, revision, expected))
    {
      hide Inv, Finish, Taken, RestoredEditions, HasIssueRow;
      var issue :- LockIssue(tables, id, expected, Conflict);
      if revision !in issue.revisions { return Err(NotFound); }
      var snapshot := issue.revisions[revision];
      if exists l | l in snapshot.uploads :: l !in EDITIONS { return Err(Invalid); }
      if (issue.date != snapshot.date || issue.number != snapshot.number) && HasIssueRow(tables, id) { return Err(Conflict); }
      if exists l | l in issue.editions && l !in snapshot.uploads ::
           HoldsGrant(issue.editions[l]) || issue.editions[l].status.Published? ||
           issue.editions[l].status.Unpublishing? || issue.editions[l].status.UnpublishFailed? { return Err(Conflict); }
      if Taken(tables.issues, id, snapshot.number, snapshot.date) { return Err(Conflict); }
      var editions := RestoreEditions(issue.editions, snapshot.uploads);
      issue := issue.(number := snapshot.number, date := snapshot.date, status := Draft, editions := editions);
      var tx :- FinishDraft(tables, id, issue);
      RestoreIssueRevisionKeeps(tables, id, revision, expected);
      tables := tx;
      return Ok(());
    }

    method DropIssue(id: Id, expected: Version) returns (result: Result<()>)
      requires Valid()
      modifies this
      ensures Valid() && Settles(result, old(tables), DeleteIssue(old(tables), id, expected))
    {
      hide Inv, HasPublicState;
      if id !in tables.issues { return Err(NotFound); }
      var issue := tables.issues[id];
      if issue.version != expected { return Err(Precondition); }
      if Busy(issue.status) || issue.status.Published? || issue.status.UnpublishFailed? { return Err(Conflict); }
      if HasPublicState(tables, id) { return Err(Conflict); }
      var tx := tables.(issues := tables.issues - {id});
      DeleteIssueKeeps(tables, id, expected);
      tables := tx;
      return Ok(());
    }

    // -------------------------------------------------------------- publishing

    method BeginPublish(id: Id, l: Locale, expected: Version, notify: bool) returns (result: Result<()>)
      requires Valid()
      modifies this
      ensures Valid() && Settles(result, old(tables), StartPublish(old(tables), id, l, expected, notify))
    {
      hide Inv;
      if l !in EDITIONS { return Err(Invalid); }
      var issue :- LockIssue(tables, id, expected, NotPublishable);
      if l !in issue.editions { return Err(NotPublishable); }
      var asset := issue.editions[l].asset;
      var next := issue.version + 1;
      var key := PublishKey(id, l, next);
      issue := issue.(status := Publishing, version := next);
      issue := issue.(editions := issue.editions[l := issue.editions[l].(status := Publishing)]);
      var tx := tables.(issues := tables.issues[id := issue]);
      if key in tx.outbox { return Err(Duplicate); }
      tx := tx.(outbox := tx.outbox[key := Event(Waiting, 0, asset, None, notify)]);
      StartPublishKeeps(tables, id, l, expected, notify);
      tables := tx;
      return Ok(());
    }

    /** SELECT … ORDER BY number DESC, date DESC LIMIT 1 */
    method SelectBest(candidates: set<Projection>) returns (best: Projection)
      requires candidates != {}
      requires forall p, q | p in candidates && q in candidates && p.payload.date == q.payload.date :: p == q
      ensures best == Best(candidates)
    {
      best :| best in candidates;
      var done := {best};
      while done != candidates
        invariant best in done && done <= candidates
        invariant forall q | q in done :: AtLeast(best, q)
        decreases candidates - done
      {
        var p := Following(candidates, done);
        if !AtLeast(best, p) { best := p; }
        done := done + {p};
      }
      assert AtLeast(best, Best(candidates)) && AtLeast(Best(candidates), best);
    }

    /** Drop the issue's latest row, then refill the latest key from the rows that remain. */
    method RebuildLatest(rows: map<(Locale, Date), Projection>, before: map<Locale, Latest>, l: Locale, id: Id)
      returns (latest: map<Locale, Latest>)
      requires forall p, q | p in Candidates(rows, before, l) && q in Candidates(rows, before, l) && p.payload.date == q.payload.date :: p == q
      ensures latest == Relatest(rows, before, l, id)
    {
      latest := if l in before && before[l].row.issue == id then before - {l} else before;
      var candidates := Candidates(rows, latest, l);
      if candidates == {} { return; }
      assert candidates <= Candidates(rows, before, l);
      var best := SelectBest(candidates);
      if l in latest {
        latest := latest[l := latest[l].(row := best)];
      } else {
        latest := latest[l := Latest(true, best)];
      }
    }

    lemma CandidatesDiffer(b: Tables, l: Locale, d: Date)
      requires Inv(b)
      ensures var all := Candidates(b.rows - {(l, d)}, b.latest, l);
        forall p, q | p in all && q in all && p.payload.date == q.payload.date :: p == q
    {
      hide Inv, RowInv;
      TableInv(b);
      forall p | p in Candidates(b.rows - {(l, d)}, b.latest, l)
        ensures (l, p.payload.date) in b.rows && b.rows[(l, p.payload.date)] == p
      {
        DatesOf(b);
      }
    }

    lemma DatesOf(b: Tables)
      requires Inv(b)
      ensures forall key | key in b.rows :: b.rows[key].payload.date == key.1
    {
      forall key | key in b.rows ensures b.rows[key].payload.date == key.1 { RowAt(b, key); }
    }

    method BeginUnpublish(id: Id, l: Locale, expected: Version) returns (result: Result<()>)
      requires Valid()
      modifies this
      ensures Valid() && Settles(result, old(tables), Unpublish(old(tables), id, l, expected))
    {
      hide Inv, Relatest, Candidates;
      if l !in EDITIONS { return Err(Invalid); }
      var issue :- LockIssue(tables, id, expected, NotPublishable);
      if l !in issue.editions || !Unpublishable(issue.editions[l]) { return Err(NotPublishable); }
      var edition := issue.editions[l];
      var asset := if edition.retiringAsset.Some? then edition.retiringAsset.value else edition.asset;
      var next := issue.version + 1;
      var rows := tables.rows - {(l, issue.date)};
      CandidatesDiffer(tables, l, issue.date);
      var latest := RebuildLatest(rows, tables.latest, l, id);
      var key := UnpublishKey(id, l, next);
      if key in tables.outbox { return Err(Duplicate); }
      issue := issue.(editions := issue.editions[l := edition.(status := Unpublishing)]);
      issue := issue.(status := Unpublishing, version := next);
      var tx := tables.(issues := tables.issues[id := issue], rows := rows, latest := latest);
      tx := tx.(outbox := tx.outbox[key := Event(Waiting, 0, asset, edition.grant, false)]);
      UnpublishKeeps(tables, id, l, expected);
      tables := tx;
      return Ok(());
    }

    method EndPublish(id: Id, l: Locale, v: Version) returns (result: Result<()>)
      requires Valid()
      modifies this
      ensures Valid() && Settles(result, old(tables), CompletePublish(old(tables), id, l, v))
    {
      hide Inv;
      ghost var spec := CompletePublish(tables, id, l, v);
      if spec.Ok? { CompletePublishKeeps(tables, id, l, v); }
      var key := PublishKey(id, l, v);
      if l !in EDITIONS { return Err(Invalid); }
      if key !in tables.outbox { return Err(NotFound); }
      var event := tables.outbox[key];
      if event.status.Delivered? { return Ok(()); }
      if id !in tables.issues || l !in tables.issues[id].editions { return Err(NotFound); }
      var issue := tables.issues[id];
      var edition := issue.editions[l];
      if issue.version != v || !issue.status.Publishing? || !edition.status.Publishing? { return Err(Stale); }
      var asks := WantsNotice(issue, event);
      var row := Projection(id, v, Public(issue.number, issue.date, edition.text, event.asset));
      var tx := tables.(rows := tables.rows[(l, issue.date) := row]);
      if l !in tx.latest {
        tx := tx.(latest := tx.latest[l := Latest(false, row)]);
      } else if Rank(tx.latest[l].row.payload.number) <= Rank(row.payload.number) {
        tx := tx.(latest := tx.latest[l := tx.latest[l].(row := row)]);
      }
      tx := tx.(outbox := tx.outbox[key := event.(status := Delivered)]);
      var live := edition.(status := Published, grant := Some(Grant(id, l, v)), retiringAsset := None, retiringGrant := None);
      issue := issue.(status := Published, editions := issue.editions[l := live]);
      tx := tx.(outbox := RetireFile(tx.outbox, id, l, edition, event.asset));
      if asks {
        tx := tx.(outbox := RequestNotice(tx.outbox, id));
        issue := issue.(notice := NoticePending);
      }
      tables := tx.(issues := tx.issues[id := issue]);
      return Ok(());
    }

    method AnyEditionPublished(editions: map<Locale, Edition>) returns (found: bool)
      ensures found == AnyPublished(editions)
    {
      var done: set<Locale> := {};
      while done != editions.Keys
        invariant done <= editions.Keys
        invariant forall l | l in done :: !editions[l].status.Published?
        decreases editions.Keys - done
      {
        var l := Following(editions.Keys, done);
        if editions[l].status.Published? { return true; }
        done := done + {l};
      }
      return false;
    }

    method EndUnpublish(id: Id, l: Locale, v: Version) returns (result: Result<()>)
      requires Valid()
      modifies this
      ensures Valid() && Settles(result, old(tables), CompleteUnpublish(old(tables), id, l, v))
    {
      hide Inv;
      ghost var spec := CompleteUnpublish(tables, id, l, v);
      if spec.Ok? { CompleteUnpublishKeeps(tables, id, l, v); }
      var key := UnpublishKey(id, l, v);
      if key !in tables.outbox { return Err(NotFound); }
      if tables.outbox[key].status.Delivered? { return Ok(()); }
      if id !in tables.issues || l !in tables.issues[id].editions { return Err(Stale); }
      var issue := tables.issues[id];
      if issue.version != v || !issue.editions[l].status.Unpublishing? { return Err(Stale); }
      var edition := issue.editions[l].(status := Unpublished, grant := None, retiringAsset := None, retiringGrant := None);
      issue := issue.(editions := issue.editions[l := edition]);
      var published := AnyEditionPublished(issue.editions);
      issue := issue.(status := if published then Published else Unpublished);
      var tx := tables.(issues := tables.issues[id := issue]);
      tables := tx.(outbox := tx.outbox[key := tx.outbox[key].(status := Delivered)]);
      return Ok(());
    }

    // -------------------------------------------------------------- the outbox

    method ClaimEvent(key: EventKey)
      requires Valid()
      modifies this
      ensures Valid() && tables == Claim(old(tables), key)
    {
      hide Inv;
      ClaimKeeps(tables, key);
      if key in tables.outbox && (tables.outbox[key].status.Waiting? || tables.outbox[key].status.Processing?) {
        var event := tables.outbox[key];
        tables := tables.(outbox := tables.outbox[key := event.(status := Processing, attempts := event.attempts + 1)]);
      }
    }

    method ReleaseEvent(key: EventKey, defers: bool)
      requires Valid()
      modifies this
      ensures Valid() && tables == Release(old(tables), key, defers)
    {
      hide Inv;
      ReleaseKeeps(tables, key, defers);
      if key in tables.outbox && tables.outbox[key].status.Processing? {
        var event := tables.outbox[key];
        if defers && event.attempts > 0 { event := event.(attempts := event.attempts - 1); }
        tables := tables.(outbox := tables.outbox[key := event.(status := Waiting)]);
      }
    }

    method FailEvent(key: EventKey)
      requires Valid()
      modifies this
      ensures Valid() && tables == Fail(old(tables), key)
    {
      hide Inv;
      FailKeeps(tables, key);
      if key !in tables.outbox { return; }
      var tx := tables.(outbox := tables.outbox[key := tables.outbox[key].(status := FailedEvent)]);
      if key.issue in tx.issues {
        var issue := tx.issues[key.issue];
        if key.NoticeKey? {
          if issue.notice.NoticePending? { tx := tx.(issues := tx.issues[key.issue := issue.(notice := NoticeFailed)]); }
        } else if key.PublishKey? || key.UnpublishKey? {
          var from := if key.PublishKey? then Publishing else Unpublishing;
          var to := if key.PublishKey? then Draft else UnpublishFailed;
          if issue.version == key.version {
            if issue.status == from { issue := issue.(status := to); }
            if key.locale in issue.editions && issue.editions[key.locale].status == from {
              issue := issue.(editions := issue.editions[key.locale := issue.editions[key.locale].(status := to)]);
            }
          }
          tx := tx.(issues := tx.issues[key.issue := issue]);
        }
      }
      tables := tx;
    }

    method FailAndRevoke(id: Id, l: Locale, v: Version)
      requires Valid()
      modifies this
      ensures Valid() && tables == FailPublish(old(tables), id, l, v)
    {
      hide Inv, Fail;
      FailPublishKeeps(tables, id, l, v);
      var key := PublishKey(id, l, v);
      var present := key in tables.outbox;
      var asset := if present then tables.outbox[key].asset else "";
      FailEvent(key);
      if present && RevokeKey(id, l, v) !in tables.outbox {
        var revoke := Event(Waiting, 0, asset, Some(Grant(id, l, v)), false);
        tables := tables.(outbox := tables.outbox[RevokeKey(id, l, v) := revoke]);
      }
    }

    method EndNotification(id: Id)
      requires Valid() && NoticeKey(id) in tables.outbox && tables.outbox[NoticeKey(id)].status.Processing?
      modifies this
      ensures Valid() && tables == CompleteNotification(old(tables), id)
    {
      hide Inv;
      CompleteNotificationKeeps(tables, id);
      var tx := tables.(outbox := tables.outbox[NoticeKey(id) := tables.outbox[NoticeKey(id)].(status := Delivered)]);
      if id in tx.issues && tx.issues[id].notice.NoticePending? {
        tx := tx.(issues := tx.issues[id := tx.issues[id].(notice := NoticeQueued)]);
      }
      tables := tx;
    }
  }
}
