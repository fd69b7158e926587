/** What every reachable state of the bulletin tables satisfies, and that each transaction
    keeps it, whatever the worker does and in whatever order. */
module BulletinInvariants {
  import opened ContentModel
  import opened Bulletins

  predicate LiveAt(outbox: map<EventKey, Event>, key: EventKey) {
    key in outbox && LiveEvent(outbox[key])
  }

  /** The event of a busy edition. */
  function FlightKey(status: Status, id: Id, l: Locale, v: Version): EventKey {
    if status.Publishing? then PublishKey(id, l, v) else UnpublishKey(id, l, v)
  }

  /** Issue, edition and event in lockstep: busy editions agree with their issue, there is at
      most one, there is one if the issue is busy, and its event for this version is live. */
  ghost predicate FlightInv(id: Id, issue: Issue, outbox: map<EventKey, Event>) {
    && (forall l | l in issue.editions && Busy(issue.editions[l].status) ::
          issue.status == issue.editions[l].status && LiveAt(outbox, FlightKey(issue.status, id, l, issue.version)))
    && (forall l, k | l in issue.editions && k in issue.editions && Busy(issue.editions[l].status) && Busy(issue.editions[k].status) :: l == k)
    && (Busy(issue.status) ==> exists l | l in issue.editions :: Busy(issue.editions[l].status))
  }

  ghost predicate IssueInv(issue: Issue) {
    && 1 <= issue.version
    && issue.editions.Keys <= EDITIONS
    && (forall v | v in issue.revisions :: 1 <= v <= issue.version)
    && (issue.status.Published? ==> AnyPublished(issue.editions))
  }

  ghost predicate NoticeInv(id: Id, notice: Notice, outbox: map<EventKey, Event>) {
    && (notice.NotRequested? <==> NoticeKey(id) !in outbox)
    && (notice.NoticePending? ==> LiveAt(outbox, NoticeKey(id)))
    && (notice.NoticeFailed? ==> NoticeKey(id) in outbox && outbox[NoticeKey(id)].status.FailedEvent?)
    && (notice.NoticeQueued? ==> !LiveAt(outbox, NoticeKey(id)))
  }

  ghost predicate EventInv(issues: map<Id, Issue>, used: set<Id>, key: EventKey, event: Event) {
    && key.issue in used
    && (key.PublishKey? || key.UnpublishKey? ==>
          && (key.issue in issues ==> key.version <= issues[key.issue].version)
          && (LiveEvent(event) ==> key.issue in issues && InFlight(issues[key.issue], key))
          && (key.issue in issues && issues[key.issue].version == key.version && Busy(issues[key.issue].status) ==>
                InFlight(issues[key.issue], key)))
  }

  /** The issue is at the version of a life-cycle event, and its edition is in the state the
      event is to end. */
  predicate InFlight(issue: Issue, key: EventKey)
    requires key.PublishKey? || key.UnpublishKey?
  {
    && issue.version == key.version
    && key.locale in issue.editions
    && issue.editions[key.locale].status == if key.PublishKey? then Publishing else Unpublishing
  }

  /** A public row shows the issue of its date as it is numbered, in an edition that holds a
      grant and is not being withdrawn. */
  ghost predicate RowInv(issues: map<Id, Issue>, l: Locale, d: Date, row: Projection) {
    && row.issue in issues
    && var issue := issues[row.issue];
       && issue.date == d == row.payload.date
       && issue.number == row.payload.number
       && row.version <= issue.version
       && l in issue.editions
       && issue.editions[l].grant.Some?
       && !issue.editions[l].status.Unpublishing?
  }

  ghost predicate PublishedRows(id: Id, issue: Issue, rows: map<(Locale, Date), Projection>) {
    forall l | l in issue.editions && issue.editions[l].status.Published? ::
      (l, issue.date) in rows && rows[(l, issue.date)].issue == id
  }

  ghost predicate UniqueInv(issues: map<Id, Issue>) {
    forall i, j | i in issues && j in issues && i != j ::
      issues[i].date != issues[j].date && (issues[i].number.Some? ==> issues[i].number != issues[j].number)
  }

  /** The cache is the maximum: an edition has a latest row exactly when it has a row at all;
      it is one of them; and none has a greater number. */
  ghost predicate LatestInv(rows: map<(Locale, Date), Projection>, latest: map<Locale, Latest>) {
    && (forall l | l in latest ::
          var row := latest[l].row; (l, row.payload.date) in rows && rows[(l, row.payload.date)] == row)
    && (forall key | key in rows ::
          key.0 in latest && Rank(rows[key].payload.number) <= Rank(latest[key.0].row.payload.number))
  }

  ghost predicate Inv(b: Tables) {
    && b.issues.Keys <= b.used
    && UniqueInv(b.issues)
    && (forall id | id in b.issues ::
          && IssueInv(b.issues[id])
          && FlightInv(id, b.issues[id], b.outbox)
          && NoticeInv(id, b.issues[id].notice, b.outbox)
          && PublishedRows(id, b.issues[id], b.rows))
    && (forall key | key in b.outbox :: EventInv(b.issues, b.used, key, b.outbox[key]))
    && (forall key | key in b.rows :: RowInv(b.issues, key.0, key.1, b.rows[key]))
    && LatestInv(b.rows, b.latest)
  }

  // ---------------------------------------------------------------- one issue at a time

  /** The part of the invariant that speaks of one issue. */
  ghost predicate IssueHolds(b: Tables, id: Id)
    requires id in b.issues
  {
    && IssueInv(b.issues[id])
    && FlightInv(id, b.issues[id], b.outbox)
    && NoticeInv(id, b.issues[id].notice, b.outbox)
    && PublishedRows(id, b.issues[id], b.rows)
  }

  /** Nothing the other issues rely on changed. */
  ghost predicate OthersKept(before: Tables, after: Tables, id: Id) {
    && (forall i | i in after.issues && i != id :: i in before.issues && after.issues[i] == before.issues[i])
    && (forall key | key in before.outbox && key.issue != id :: key in after.outbox && after.outbox[key] == before.outbox[key])
    && (forall key | key in after.outbox && key.issue != id :: key in before.outbox)
    && (forall key | key in before.rows && before.rows[key].issue != id :: key in after.rows && after.rows[key] == before.rows[key])
    && (forall key | key in after.rows && after.rows[key].issue != id :: key in before.rows && before.rows[key] == after.rows[key])
  }

  lemma OtherHolds(before: Tables, after: Tables, id: Id, other: Id)
    requires OthersKept(before, after, id) && other != id
    requires other in before.issues && other in after.issues && IssueHolds(before, other)
    ensures IssueHolds(after, other)
  {
    var issue := after.issues[other];
    forall l | l in issue.editions && Busy(issue.editions[l].status)
      ensures LiveAt(after.outbox, FlightKey(issue.status, other, l, issue.version))
    {
      assert FlightKey(issue.status, other, l, issue.version).issue == other;
    }
    assert NoticeKey(other).issue == other;
    assert NoticeKey(other) in after.outbox <==> NoticeKey(other) in before.outbox;
  }

  /** To keep the invariant, a transaction on one issue has to look after that issue, its
      events, its rows, the uniqueness constraints and the latest rows. */
  lemma OneIssueKeeps(before: Tables, after: Tables, id: Id)
    requires Inv(before) && OthersKept(before, after, id)
    requires before.used <= after.used && after.issues.Keys <= after.used && after.issues.Keys + {id} >= before.issues.Keys
    requires UniqueInv(after.issues) && LatestInv(after.rows, after.latest)
    requires id in after.issues ==> IssueHolds(after, id)
    requires forall key | key in after.outbox && key.issue == id :: EventInv(after.issues, after.used, key, after.outbox[key])
    requires forall key | key in after.rows && after.rows[key].issue == id :: RowInv(after.issues, key.0, key.1, after.rows[key])
    ensures Inv(after)
  {
    hide Inv, UniqueInv, LatestInv, OthersKept, IssueHolds, EventInv, RowInv;
    OtherIssuesHold(before, after, id);
    OtherEventsHold(before, after, id);
    OtherRowsHold(before, after, id);
    HoldsTogether(after);
  }

  lemma OtherIssuesHold(before: Tables, after: Tables, id: Id)
    requires Inv(before) && OthersKept(before, after, id)
    ensures forall i | i in after.issues && i != id :: IssueHolds(after, i)
  {
    hide FlightInv, NoticeInv, IssueInv, PublishedRows, UniqueInv, LatestInv, EventInv, RowInv;
    forall i | i in after.issues && i != id ensures IssueHolds(after, i) {
      assert IssueHolds(before, i);
      OtherHolds(before, after, id, i);
    }
  }

  lemma OtherEventsHold(before: Tables, after: Tables, id: Id)
    requires Inv(before) && OthersKept(before, after, id) && before.used <= after.used && after.issues.Keys + {id} >= before.issues.Keys
    ensures forall key | key in after.outbox && key.issue != id :: EventInv(after.issues, after.used, key, after.outbox[key])
  {
    hide FlightInv, NoticeInv, IssueInv, PublishedRows, UniqueInv, LatestInv, RowInv;
    forall key | key in after.outbox && key.issue != id ensures EventInv(after.issues, after.used, key, after.outbox[key]) {
      assert EventInv(before.issues, before.used, key, before.outbox[key]);
    }
  }

  lemma OtherRowsHold(before: Tables, after: Tables, id: Id)
    requires Inv(before) && OthersKept(before, after, id) && after.issues.Keys + {id} >= before.issues.Keys
    ensures forall key | key in after.rows && after.rows[key].issue != id :: RowInv(after.issues, key.0, key.1, after.rows[key])
  {
    hide FlightInv, NoticeInv, IssueInv, PublishedRows, UniqueInv, LatestInv, EventInv;
    forall key | key in after.rows && after.rows[key].issue != id ensures RowInv(after.issues, key.0, key.1, after.rows[key]) {
      assert RowInv(before.issues, key.0, key.1, before.rows[key]);
    }
  }

  lemma HoldsTogether(b: Tables)
    requires b.issues.Keys <= b.used && UniqueInv(b.issues) && LatestInv(b.rows, b.latest)
    requires forall id | id in b.issues :: IssueHolds(b, id)
    requires forall key | key in b.outbox :: EventInv(b.issues, b.used, key, b.outbox[key])
    requires forall key | key in b.rows :: RowInv(b.issues, key.0, key.1, b.rows[key])
    ensures Inv(b)
  {
    hide FlightInv, NoticeInv, IssueInv, PublishedRows, UniqueInv, LatestInv, EventInv, RowInv;
  }

  lemma NotTakenKeepsUnique(issues: map<Id, Issue>, id: Id, issue: Issue)
    requires UniqueInv(issues) && !Taken(issues, id, issue.number, issue.date)
    ensures UniqueInv(issues[id := issue])
  {
  }

  lemma SameMetadataKeepsUnique(issues: map<Id, Issue>, id: Id, issue: Issue)
    requires UniqueInv(issues) && id in issues && issue.number == issues[id].number && issue.date == issues[id].date
    ensures UniqueInv(issues[id := issue])
  {
  }

  // ---------------------------------------------------------------- editing

  lemma TableInv(b: Tables)
    requires Inv(b)
    ensures b.issues.Keys <= b.used && UniqueInv(b.issues) && LatestInv(b.rows, b.latest)
  {
  }

  lemma FreshId(b: Tables, id: Id)
    requires Inv(b) && id !in b.used
    ensures id !in b.issues
    ensures forall key | key in b.outbox :: key.issue != id
    ensures forall key | key in b.rows :: b.rows[key].issue != id
  {
    forall key | key in b.outbox ensures key.issue != id { assert EventInv(b.issues, b.used, key, b.outbox[key]); }
    forall key | key in b.rows ensures b.rows[key].issue != id { assert RowInv(b.issues, key.0, key.1, b.rows[key]); }
  }

  lemma CreateIssueKeeps(b: Tables, id: Id, number: nat, date: Date)
    requires Inv(b) && CreateIssue(b, id, number, date).Ok?
    ensures Inv(CreateIssue(b, id, number, date).value)
  {
    hide Inv, UniqueInv, LatestInv;
    var after := CreateIssue(b, id, number, date).value;
    FreshId(b, id);
    TableInv(b);
    NotTakenKeepsUnique(b.issues, id, after.issues[id]);
    OneIssueKeeps(b, after, id);
  }

  /** Rewriting an idle issue at its next version. */
  ghost predicate Rewrites(b: Tables, id: Id, issue: Issue)
    requires id in b.issues
  {
    var was := b.issues[id];
    && !Busy(was.status)
    && issue.version == was.version + 1
    && issue.notice == was.notice
    && !Busy(issue.status)
    && IssueInv(issue)
    && (forall l | l in issue.editions :: !Busy(issue.editions[l].status))
    && ((issue.date == was.date && issue.number == was.number) || !Taken(b.issues, id, issue.number, issue.date))
    && (forall l | l in issue.editions && issue.editions[l].status.Published? ::
          issue.date == was.date && l in was.editions && was.editions[l].status.Published?)
    && (forall key | key in b.rows && b.rows[key].issue == id ::
          && issue.date == was.date && issue.number == was.number
          && key.0 in issue.editions && issue.editions[key.0].grant.Some?)
  }

  lemma RewriteKeeps(b: Tables, id: Id, issue: Issue)
    requires Inv(b) && id in b.issues && Rewrites(b, id, issue)
    ensures Inv(b.(issues := b.issues[id := issue]))
  {
    hide Inv, UniqueInv, LatestInv, IssueHolds, IssueInv, Taken;
    var after := b.(issues := b.issues[id := issue]);
    TableInv(b);
    RewriteHolds(b, id, issue);
    RewriteKeepsUnique(b, id, issue);
    RewriteKeepsEvents(b, id, issue);
    RewriteKeepsRows(b, id, issue);
    OneIssueKeeps(b, after, id);
  }

  lemma RewriteKeepsUnique(b: Tables, id: Id, issue: Issue)
    requires UniqueInv(b.issues) && id in b.issues && Rewrites(b, id, issue)
    ensures UniqueInv(b.issues[id := issue])
  {
    hide UniqueInv;
    var was := b.issues[id];
    if issue.date == was.date && issue.number == was.number { SameMetadataKeepsUnique(b.issues, id, issue); }
    else { NotTakenKeepsUnique(b.issues, id, issue); }
  }

  lemma RewriteKeepsEvents(b: Tables, id: Id, issue: Issue)
    requires Inv(b) && id in b.issues && Rewrites(b, id, issue)
    ensures forall key | key in b.outbox && key.issue == id :: EventInv(b.issues[id := issue], b.used, key, b.outbox[key])
  {
    forall key | key in b.outbox && key.issue == id ensures EventInv(b.issues[id := issue], b.used, key, b.outbox[key]) {
      assert EventInv(b.issues, b.used, key, b.outbox[key]);
      assert FlightInv(id, b.issues[id], b.outbox);
    }
  }

  lemma RewriteKeepsRows(b: Tables, id: Id, issue: Issue)
    requires Inv(b) && id in b.issues && Rewrites(b, id, issue)
    ensures forall key | key in b.rows && b.rows[key].issue == id :: RowInv(b.issues[id := issue], key.0, key.1, b.rows[key])
  {
    forall key | key in b.rows && b.rows[key].issue == id ensures RowInv(b.issues[id := issue], key.0, key.1, b.rows[key]) {
      assert RowInv(b.issues, key.0, key.1, b.rows[key]);
    }
  }

  lemma RewriteHolds(b: Tables, id: Id, issue: Issue)
    requires Inv(b) && id in b.issues && Rewrites(b, id, issue)
    ensures IssueHolds(b.(issues := b.issues[id := issue]), id)
  {
    var was := b.issues[id];
    assert FlightInv(id, was, b.outbox) && NoticeInv(id, was.notice, b.outbox) && PublishedRows(id, was, b.rows);
    forall l | l in issue.editions && issue.editions[l].status.Published?
      ensures (l, issue.date) in b.rows && b.rows[(l, issue.date)].issue == id
    {
      assert was.editions[l].status.Published?;
    }
  }

  /** `Finish` turns a rewrite into the stored issue. */
  lemma FinishKeeps(b: Tables, id: Id, issue: Issue)
    requires Inv(b) && id in b.issues && Finish(b, id, issue).Ok?
    requires issue.version == b.issues[id].version && issue.revisions == b.issues[id].revisions
    requires Rewrites(b, id, issue.(version := issue.version + 1))
    ensures Inv(Finish(b, id, issue).value)
  {
    hide Inv;
    RewriteKeeps(b, id, Finish(b, id, issue).value.issues[id]);
  }

  /** What the invariant says about an idle issue's own rows. */
  lemma IdleIssue(b: Tables, id: Id)
    requires Inv(b) && id in b.issues && !Busy(b.issues[id].status)
    ensures IssueInv(b.issues[id])
    ensures forall l | l in b.issues[id].editions :: !Busy(b.issues[id].editions[l].status)
    ensures forall key | key in b.rows && b.rows[key].issue == id ::
      key.0 in b.issues[id].editions && b.issues[id].editions[key.0].grant.Some?
  {
    assert FlightInv(id, b.issues[id], b.outbox);
    forall key | key in b.rows && b.rows[key].issue == id
      ensures key.0 in b.issues[id].editions && b.issues[id].editions[key.0].grant.Some?
    {
      assert RowInv(b.issues, key.0, key.1, b.rows[key]);
    }
  }

  lemma UpdateIssueKeeps(b: Tables, id: Id, expected: Version, number: nat, date: Date)
    requires Inv(b) && UpdateIssue(b, id, expected, number, date).Ok?
    ensures Inv(UpdateIssue(b, id, expected, number, date).value)
  {
    hide Inv, Finish, LockIssue, Taken;
    LockedIssue(b, id, expected);
    IdleIssue(b, id);
    FinishKeeps(b, id, b.issues[id].(number := Some(number), date := date));
  }

  lemma LockedIssue(b: Tables, id: Id, expected: Version)
    ensures forall busy :: var locked := LockIssue(b, id, expected, busy);
      locked.Ok? ==> id in b.issues && locked.value == b.issues[id] && !Busy(b.issues[id].status)
  {
  }

  lemma PutVersionKeeps(b: Tables, id: Id, l: Locale, expected: Version, upload: Upload)
    requires Inv(b) && PutVersion(b, id, l, expected, upload).Ok?
    ensures Inv(PutVersion(b, id, l, expected, upload).value)
  {
    hide Inv, Finish, LockIssue, Taken, HasIssueRow;
    LockedIssue(b, id, expected);
    IdleIssue(b, id);
    var issue := b.issues[id];
    FinishKeeps(b, id, issue.(status := Draft, editions := issue.editions[l := Uploaded(EditionAt(issue, l), upload)]));
  }

  lemma UpdateVersionKeeps(b: Tables, id: Id, l: Locale, expected: Version, text: string)
    requires Inv(b) && UpdateVersion(b, id, l, expected, text).Ok?
    ensures Inv(UpdateVersion(b, id, l, expected, text).value)
  {
    hide Inv, Finish, LockIssue, Taken, HasIssueRow;
    LockedIssue(b, id, expected);
    IdleIssue(b, id);
    var issue := b.issues[id];
    FinishKeeps(b, id, issue.(status := Draft, editions := issue.editions[l := issue.editions[l].(text := text, status := Draft)]));
  }

  lemma DeleteVersionKeeps(b: Tables, id: Id, l: Locale, expected: Version)
    requires Inv(b) && DeleteVersion(b, id, l, expected).Ok?
    ensures Inv(DeleteVersion(b, id, l, expected).value)
  {
    hide Inv, Finish, LockIssue, Taken, HasIssueRow;
    LockedIssue(b, id, expected);
    IdleIssue(b, id);
    var issue := b.issues[id];
    FinishKeeps(b, id, issue.(status := Draft, editions := issue.editions - {l}));
  }

  lemma RestoreIssueRevisionKeeps(b: Tables, id: Id, revision: Version, expected: Version)
    requires Inv(b) && RestoreIssueRevision(b, id, revision, expected).Ok?
    ensures Inv(RestoreIssueRevision(b, id, revision, expected).value)
  {
    hide Inv, Finish, LockIssue, Taken;
    LockedIssue(b, id, expected);
    IdleIssue(b, id);
    var issue := b.issues[id];
    var snapshot := issue.revisions[revision];
    var restored := issue.(number := snapshot.number, date := snapshot.date, status := Draft,
                           editions := RestoredEditions(issue.editions, snapshot.uploads));
    forall key | key in b.rows && b.rows[key].issue == id
      ensures snapshot.date == issue.date && snapshot.number == issue.number
      ensures key.0 in restored.editions && restored.editions[key.0].grant.Some?
    {
      assert HasIssueRow(b, id);
      assert HoldsGrant(issue.editions[key.0]);
    }
    FinishKeeps(b, id, restored);
  }

  lemma DeleteIssueKeeps(b: Tables, id: Id, expected: Version)
    requires Inv(b) && DeleteIssue(b, id, expected).Ok?
    ensures Inv(DeleteIssue(b, id, expected).value)
  {
    hide Inv, UniqueInv, LatestInv, IssueHolds, EventInv;
    var after := DeleteIssue(b, id, expected).value;
    TableInv(b);
    RemovalKeepsUnique(b.issues, id);
    RemovalKeepsEvents(b, id);
    OneIssueKeeps(b, after, id);
  }

  lemma RemovalKeepsUnique(issues: map<Id, Issue>, id: Id)
    requires UniqueInv(issues)
    ensures UniqueInv(issues - {id})
  {
  }

  lemma RemovalKeepsEvents(b: Tables, id: Id)
    requires Inv(b) && id in b.issues && !Busy(b.issues[id].status)
    ensures forall key | key in b.outbox && key.issue == id :: EventInv(b.issues - {id}, b.used, key, b.outbox[key])
  {
    IdleIssue(b, id);
    forall key | key in b.outbox && key.issue == id ensures EventInv(b.issues - {id}, b.used, key, b.outbox[key]) {
      assert EventInv(b.issues, b.used, key, b.outbox[key]);
    }
  }

  // ---------------------------------------------------------------- entering a busy state

  /** Edition `l` of idle issue `id` enters `status`, at most its own row goes, and its event
      is queued. */
  lemma EnterKeeps(b: Tables, after: Tables, id: Id, l: Locale, status: Status, event: Event)
    requires Inv(b) && id in b.issues && l in b.issues[id].editions && !Busy(b.issues[id].status)
    requires Busy(status) && event.status.Waiting?
    requires FlightKey(status, id, l, b.issues[id].version + 1) !in b.outbox
    requires after == b.(issues := b.issues[id := Entered(b.issues[id], l, status)],
                         outbox := b.outbox[FlightKey(status, id, l, b.issues[id].version + 1) := event],
                         rows := after.rows, latest := after.latest)
    requires after.rows == if status.Publishing? then b.rows else b.rows - {(l, b.issues[id].date)}
    requires LatestInv(after.rows, after.latest)
    ensures Inv(after)
  {
    hide Inv, UniqueInv, LatestInv, IssueHolds;
    TableInv(b);
    IdleIssue(b, id);
    SameMetadataKeepsUnique(b.issues, id, after.issues[id]);
    EnterHolds(b, after, id, l, status, event);
    EnterEvents(b, after, id, l, status, event);
    EnterRows(b, after, id, l, status);
    OneIssueKeeps(b, after, id);
  }

  lemma EnterHolds(b: Tables, after: Tables, id: Id, l: Locale, status: Status, event: Event)
    requires Inv(b) && id in b.issues && l in b.issues[id].editions && !Busy(b.issues[id].status)
    requires Busy(status) && event.status.Waiting?
    requires after.issues == b.issues[id := Entered(b.issues[id], l, status)]
    requires after.outbox == b.outbox[FlightKey(status, id, l, b.issues[id].version + 1) := event]
    requires after.rows == if status.Publishing? then b.rows else b.rows - {(l, b.issues[id].date)}
    ensures IssueHolds(after, id)
  {
    hide Inv, FlightInv, NoticeInv, PublishedRows, IssueInv;
    IdleIssue(b, id);
    HoldsAt(b, id);
    EnterFlight(id, b.issues[id], l, status, after.outbox);
    EndingKeepsNotice(id, b.issues[id].notice, b.outbox, FlightKey(status, id, l, b.issues[id].version + 1), event);
    EnterPublishedRows(id, b.issues[id], l, status, b.rows);
  }

  lemma EnterFlight(id: Id, was: Issue, l: Locale, status: Status, outbox: map<EventKey, Event>)
    requires IssueInv(was) && l in was.editions && Busy(status)
    requires forall k | k in was.editions :: !Busy(was.editions[k].status)
    requires LiveAt(outbox, FlightKey(status, id, l, was.version + 1))
    ensures IssueInv(Entered(was, l, status)) && FlightInv(id, Entered(was, l, status), outbox)
  {
    var issue := Entered(was, l, status);
    assert l in issue.editions && Busy(issue.editions[l].status);
  }

  lemma EnterPublishedRows(id: Id, was: Issue, l: Locale, status: Status, rows: map<(Locale, Date), Projection>)
    requires PublishedRows(id, was, rows) && l in was.editions && Busy(status)
    ensures PublishedRows(id, Entered(was, l, status), rows)
    ensures PublishedRows(id, Entered(was, l, status), rows - {(l, was.date)})
  {
  }

  lemma EnterEvents(b: Tables, after: Tables, id: Id, l: Locale, status: Status, event: Event)
    requires Inv(b) && id in b.issues && l in b.issues[id].editions && !Busy(b.issues[id].status) && Busy(status)
    requires after.issues == b.issues[id := Entered(b.issues[id], l, status)] && after.used == b.used
    requires after.outbox == b.outbox[FlightKey(status, id, l, b.issues[id].version + 1) := event]
    ensures forall key | key in after.outbox && key.issue == id :: EventInv(after.issues, after.used, key, after.outbox[key])
  {
    hide Inv, EventInv;
    forall key | key in after.outbox && key.issue == id ensures EventInv(after.issues, after.used, key, after.outbox[key]) {
      EnterEvent(b, after, id, l, status, event, key);
    }
  }

  lemma EnterEvent(b: Tables, after: Tables, id: Id, l: Locale, status: Status, event: Event, key: EventKey)
    requires Inv(b) && id in b.issues && l in b.issues[id].editions && !Busy(b.issues[id].status) && Busy(status)
    requires after.issues == b.issues[id := Entered(b.issues[id], l, status)] && after.used == b.used
    requires after.outbox == b.outbox[FlightKey(status, id, l, b.issues[id].version + 1) := event]
    requires key in after.outbox && key.issue == id
    ensures EventInv(after.issues, after.used, key, after.outbox[key])
  {
    hide Inv, IssueInv;
    IdleIssue(b, id);
    if key in b.outbox { EventAt(b, key); }
    if key == FlightKey(status, id, l, b.issues[id].version + 1) { IssueIsUsed(b, id); }
  }

  lemma IssueIsUsed(b: Tables, id: Id)
    requires Inv(b) && id in b.issues
    ensures id in b.used
  {
  }

  lemma EventAt(b: Tables, key: EventKey)
    requires Inv(b) && key in b.outbox
    ensures EventInv(b.issues, b.used, key, b.outbox[key])
  {
  }

  lemma RowAt(b: Tables, key: (Locale, Date))
    requires Inv(b) && key in b.rows
    ensures RowInv(b.issues, key.0, key.1, b.rows[key])
  {
  }

  lemma EnterRow(issues: map<Id, Issue>, id: Id, l: Locale, status: Status, k: Locale, d: Date, row: Projection)
    requires RowInv(issues, k, d, row) && row.issue == id && id in issues && l in issues[id].editions
    requires k == l ==> !status.Unpublishing?
    ensures RowInv(issues[id := Entered(issues[id], l, status)], k, d, row)
  {
  }

  lemma EnterRows(b: Tables, after: Tables, id: Id, l: Locale, status: Status)
    requires Inv(b) && id in b.issues && l in b.issues[id].editions && Busy(status)
    requires after.issues == b.issues[id := Entered(b.issues[id], l, status)]
    requires after.rows == if status.Publishing? then b.rows else b.rows - {(l, b.issues[id].date)}
    ensures forall key | key in after.rows && after.rows[key].issue == id :: RowInv(after.issues, key.0, key.1, after.rows[key])
    ensures forall key | key in b.rows && b.rows[key].issue != id :: key in after.rows
  {
    hide Inv, RowInv, Entered;
    OwnRows(b, id, l);
    forall key | key in after.rows && after.rows[key].issue == id ensures RowInv(after.issues, key.0, key.1, after.rows[key]) {
      RowAt(b, key);
      OwnRows(b, id, key.0);
      EnterRow(b.issues, id, l, status, key.0, key.1, b.rows[key]);
    }
  }

  lemma StartPublishKeeps(b: Tables, id: Id, l: Locale, expected: Version, notify: bool)
    requires Inv(b) && StartPublish(b, id, l, expected, notify).Ok?
    ensures Inv(StartPublish(b, id, l, expected, notify).value)
  {
    hide Inv, LatestInv;
    TableInv(b);
    EnterKeeps(b, StartPublish(b, id, l, expected, notify).value, id, l, Publishing, Event(Waiting, 0, b.issues[id].editions[l].asset, None, notify));
  }

  /** Rebuilding the latest row of an edition that issue `id` leaves. */
  lemma RelatestKeeps(before: map<(Locale, Date), Projection>, latest: map<Locale, Latest>, l: Locale, d: Date, id: Id)
    requires LatestInv(before, latest)
    requires forall key | key in before :: before[key].payload.date == key.1
    requires forall key | key in before && key.0 == l :: before[key].issue == id <==> key.1 == d
    ensures LatestInv(before - {(l, d)}, Relatest(before - {(l, d)}, latest, l, id))
  {
    hide LatestInv, LatestAt, Relatest;
    LatestByLocale(before, latest);
    var rows := before - {(l, d)};
    var after := Relatest(rows, latest, l, id);
    LatestByLocale(rows, after);
    RelatestHere(before, latest, l, d, id);
    forall k | k != l ensures LatestAt(rows, after, k) {
      RelatestElsewhere(before, latest, l, d, id, k);
    }
  }

  /** The part of `LatestInv` about one locale. */
  ghost predicate LatestAt(rows: map<(Locale, Date), Projection>, latest: map<Locale, Latest>, l: Locale) {
    && (l in latest ==> var row := latest[l].row; (l, row.payload.date) in rows && rows[(l, row.payload.date)] == row)
    && forall key | key in rows && key.0 == l :: l in latest && Rank(rows[key].payload.number) <= Rank(latest[l].row.payload.number)
  }

  lemma LatestByLocale(rows: map<(Locale, Date), Projection>, latest: map<Locale, Latest>)
    ensures LatestInv(rows, latest) <==> forall l :: LatestAt(rows, latest, l)
  {
    if forall l :: LatestAt(rows, latest, l) {
      forall l | l in latest
        ensures (l, latest[l].row.payload.date) in rows && rows[(l, latest[l].row.payload.date)] == latest[l].row
      {
        assert LatestAt(rows, latest, l);
      }
      forall key | key in rows
        ensures key.0 in latest && Rank(rows[key].payload.number) <= Rank(latest[key.0].row.payload.number)
      {
        assert LatestAt(rows, latest, key.0);
      }
    }
  }

  lemma RelatestElsewhere(before: map<(Locale, Date), Projection>, latest: map<Locale, Latest>, l: Locale, d: Date, id: Id, k: Locale)
    requires LatestAt(before, latest, k) && k != l
    ensures LatestAt(before - {(l, d)}, Relatest(before - {(l, d)}, latest, l, id), k)
  {
    hide Best, Candidates;
  }

  lemma RelatestHere(before: map<(Locale, Date), Projection>, latest: map<Locale, Latest>, l: Locale, d: Date, id: Id)
    requires LatestAt(before, latest, l)
    requires forall key | key in before :: before[key].payload.date == key.1
    requires forall key | key in before && key.0 == l :: before[key].issue == id <==> key.1 == d
    ensures LatestAt(before - {(l, d)}, Relatest(before - {(l, d)}, latest, l, id), l)
  {
    var rows := before - {(l, d)};
    var kept := if l in latest && latest[l].row.issue == id then latest - {l} else latest;
    var candidates := Candidates(rows, kept, l);
    forall key | key in rows && key.0 == l ensures rows[key] in candidates {}
    if candidates != {} {
      var p := Best(candidates);
      assert (l, p.payload.date) in rows && rows[(l, p.payload.date)] == p;
    }
  }

  lemma OwnRows(b: Tables, id: Id, l: Locale)
    requires Inv(b) && id in b.issues
    ensures forall key | key in b.rows :: b.rows[key].payload.date == key.1
    ensures forall key | key in b.rows && key.0 == l :: b.rows[key].issue == id <==> key.1 == b.issues[id].date
  {
    forall key | key in b.rows ensures RowInv(b.issues, key.0, key.1, b.rows[key]) {}
  }

  lemma UnpublishKeeps(b: Tables, id: Id, l: Locale, expected: Version)
    requires Inv(b) && Unpublish(b, id, l, expected).Ok?
    ensures Inv(Unpublish(b, id, l, expected).value)
  {
    hide Inv, LatestInv, Relatest;
    TableInv(b);
    OwnRows(b, id, l);
    RelatestKeeps(b.rows, b.latest, l, b.issues[id].date, id);
    var after := Unpublish(b, id, l, expected).value;
    EnterKeeps(b, after, id, l, Unpublishing, after.outbox[UnpublishKey(id, l, expected + 1)]);
  }

  // ---------------------------------------------------------------- leaving a busy state

  /** A life-cycle event of a busy issue at its version is the event of its one busy edition. */
  lemma FlightIsUnique(b: Tables, id: Id, l: Locale)
    requires Inv(b) && id in b.issues && l in b.issues[id].editions && Busy(b.issues[id].editions[l].status)
    ensures var key := FlightKey(b.issues[id].status, id, l, b.issues[id].version);
      && b.issues[id].status == b.issues[id].editions[l].status
      && LiveAt(b.outbox, key)
      && forall k | k in b.outbox && k.issue == id && (k.PublishKey? || k.UnpublishKey?) && LiveEvent(b.outbox[k]) :: k == key
    ensures forall k | k in b.issues[id].editions && k != l :: !Busy(b.issues[id].editions[k].status)
  {
    assert FlightInv(id, b.issues[id], b.outbox);
    forall k | k in b.outbox && k.issue == id && (k.PublishKey? || k.UnpublishKey?) && LiveEvent(b.outbox[k])
      ensures k == FlightKey(b.issues[id].status, id, l, b.issues[id].version)
    {
      assert EventInv(b.issues, b.used, k, b.outbox[k]);
    }
  }

  /** The busy edition of an issue settles, its event ends, and its row, if any, is as it
      should be. */
  ghost predicate Lands(b: Tables, after: Tables, id: Id, l: Locale)
    requires id in b.issues && l in b.issues[id].editions && id in after.issues
  {
    var was := b.issues[id];
    var issue := after.issues[id];
    && after.used == b.used
    && after.issues == b.issues[id := issue]
    && issue == was.(status := issue.status, editions := issue.editions, notice := issue.notice)
    && issue.editions.Keys == was.editions.Keys
    && (forall k | k in was.editions && k != l :: issue.editions[k] == was.editions[k])
    && !Busy(issue.status) && !Busy(issue.editions[l].status)
    && (issue.status.Published? ==> AnyPublished(issue.editions))
    && OthersKept(b, after, id)
    && (forall key | key in after.outbox && key.issue == id && (key.PublishKey? || key.UnpublishKey?) ::
          key in b.outbox && (LiveEvent(after.outbox[key]) ==> LiveEvent(b.outbox[key])))
    && !LiveAt(after.outbox, FlightKey(was.status, id, l, was.version))
  }

  lemma LandsKeeps(b: Tables, after: Tables, id: Id, l: Locale)
    requires Inv(b) && id in b.issues && l in b.issues[id].editions && Busy(b.issues[id].editions[l].status)
    requires id in after.issues && Lands(b, after, id, l)
    requires NoticeInv(id, after.issues[id].notice, after.outbox)
    requires PublishedRows(id, after.issues[id], after.rows)
    requires LatestInv(after.rows, after.latest)
    requires forall key | key in after.rows && after.rows[key].issue == id :: RowInv(after.issues, key.0, key.1, after.rows[key])
    ensures Inv(after)
  {
    hide Inv, UniqueInv, LatestInv, NoticeInv, PublishedRows, RowInv;
    TableInv(b);
    FlightIsUnique(b, id, l);
    SameMetadataKeepsUnique(b.issues, id, after.issues[id]);
    LandedIssue(b, after, id, l);
    LandedEvents(b, after, id, l);
    OneIssueKeeps(b, after, id);
  }

  lemma LandedIssue(b: Tables, after: Tables, id: Id, l: Locale)
    requires Inv(b) && id in b.issues && l in b.issues[id].editions && Busy(b.issues[id].editions[l].status)
    requires id in after.issues && Lands(b, after, id, l)
    ensures IssueInv(after.issues[id]) && FlightInv(id, after.issues[id], after.outbox)
  {
    hide Inv, OthersKept, AnyPublished, NoticeInv, PublishedRows;
    FlightIsUnique(b, id, l);
    HoldsAt(b, id);
  }

  lemma LandedEvents(b: Tables, after: Tables, id: Id, l: Locale)
    requires Inv(b) && id in b.issues && l in b.issues[id].editions && Busy(b.issues[id].editions[l].status)
    requires id in after.issues && Lands(b, after, id, l)
    ensures forall key | key in after.outbox && key.issue == id :: EventInv(after.issues, after.used, key, after.outbox[key])
  {
    FlightIsUnique(b, id, l);
    forall key | key in after.outbox && key.issue == id ensures EventInv(after.issues, after.used, key, after.outbox[key]) {
      if key in b.outbox { assert EventInv(b.issues, b.used, key, b.outbox[key]); }
    }
  }

  lemma BusyEdition(b: Tables, id: Id, l: Locale)
    requires Inv(b) && id in b.issues && l in b.issues[id].editions && Busy(b.issues[id].editions[l].status)
    ensures b.issues[id].status == b.issues[id].editions[l].status
    ensures NoticeInv(id, b.issues[id].notice, b.outbox) && PublishedRows(id, b.issues[id], b.rows) && LatestInv(b.rows, b.latest)
    ensures forall k | k in b.issues[id].editions && k != l :: !Busy(b.issues[id].editions[k].status)
  {
    FlightIsUnique(b, id, l);
  }

  lemma AdvanceKeeps(rows: map<(Locale, Date), Projection>, latest: map<Locale, Latest>, l: Locale, d: Date, row: Projection)
    requires LatestInv(rows, latest) && row.payload.date == d
    requires forall key | key in rows :: rows[key].payload.date == key.1
    requires (l, d) in rows ==> rows[(l, d)].payload.number == row.payload.number
    ensures LatestInv(rows[(l, d) := row], Advance(latest, l, row))
  {
    hide LatestInv, LatestAt;
    LatestByLocale(rows, latest);
    var shown, after := rows[(l, d) := row], Advance(latest, l, row);
    LatestByLocale(shown, after);
    forall k ensures LatestAt(shown, after, k) { AdvanceAt(rows, latest, l, d, row, k); }
  }

  lemma AdvanceAt(rows: map<(Locale, Date), Projection>, latest: map<Locale, Latest>, l: Locale, d: Date, row: Projection, k: Locale)
    requires LatestAt(rows, latest, k) && row.payload.date == d
    requires forall key | key in rows :: rows[key].payload.date == key.1
    requires (l, d) in rows ==> rows[(l, d)].payload.number == row.payload.number
    ensures LatestAt(rows[(l, d) := row], Advance(latest, l, row), k)
  {
  }

  lemma PublishedRow(b: Tables, id: Id, l: Locale, asset: string, issue: Issue)
    requires Inv(b) && id in b.issues && l in b.issues[id].editions
    requires issue.(notice := b.issues[id].notice) == Settled(b.issues[id], l, PublishedEdition(b.issues[id].editions[l], Grant(id, l, b.issues[id].version)), Published)
    ensures var rows := b.rows[(l, issue.date) := RowFor(id, b.issues[id], l, asset)];
      && (forall key | key in rows && rows[key].issue == id :: RowInv(b.issues[id := issue], key.0, key.1, rows[key]))
      && (forall key | key in b.rows && b.rows[key].issue != id :: key in rows && rows[key] == b.rows[key])
  {
    hide Inv, RowInv, RowFor;
    var own := RowFor(id, b.issues[id], l, asset);
    var rows := b.rows[(l, issue.date) := own];
    OwnRows(b, id, l);
    NewRow(b, id, l, asset, issue);
    forall key | key in rows && rows[key].issue == id ensures RowInv(b.issues[id := issue], key.0, key.1, rows[key]) {
      if key != (l, issue.date) {
        RowAt(b, key);
        IsOwnRow(b.issues, id, key.0, key.1, b.rows[key]);
        LandedRow(b.issues, id, issue, key.0, key.1, b.rows[key]);
      }
    }
  }

  lemma NewRow(b: Tables, id: Id, l: Locale, asset: string, issue: Issue)
    requires id in b.issues && l in b.issues[id].editions
    requires issue.(notice := b.issues[id].notice) == Settled(b.issues[id], l, PublishedEdition(b.issues[id].editions[l], Grant(id, l, b.issues[id].version)), Published)
    ensures RowInv(b.issues[id := issue], l, issue.date, RowFor(id, b.issues[id], l, asset))
  {
  }

  lemma PublishedNumber(b: Tables, id: Id, l: Locale)
    requires Inv(b) && id in b.issues && (l, b.issues[id].date) in b.rows
    ensures b.rows[(l, b.issues[id].date)].payload.number == b.issues[id].number
  {
    OwnRows(b, id, l);
    assert RowInv(b.issues, l, b.issues[id].date, b.rows[(l, b.issues[id].date)]);
  }

  /** What completing a publication does to the outbox of its issue. */
  lemma PublishedOutbox(outbox: map<EventKey, Event>, id: Id, l: Locale, v: Version, edition: Edition, asks: bool)
    requires PublishKey(id, l, v) in outbox
    ensures var event := outbox[PublishKey(id, l, v)];
      var retired := RetireFile(Deliver(outbox, PublishKey(id, l, v)), id, l, edition, event.asset);
      var after := if asks then RequestNotice(retired, id) else retired;
      && (forall key | key in outbox && key.issue != id :: key in after && after[key] == outbox[key])
      && (forall key | key in after && key.issue != id :: key in outbox)
      && (forall key | key in after && key.issue == id && (key.PublishKey? || key.UnpublishKey?) ::
            key in outbox && (LiveEvent(after[key]) ==> LiveEvent(outbox[key])))
      && !LiveAt(after, PublishKey(id, l, v))
      && (!asks ==> (NoticeKey(id) in after <==> NoticeKey(id) in outbox) && (NoticeKey(id) in outbox ==> after[NoticeKey(id)] == outbox[NoticeKey(id)]))
      && (asks ==> forall notice | NoticeInv(id, notice, outbox) && !notice.NoticePending? && !notice.NoticeQueued? :: NoticeInv(id, NoticePending, after))
  {
    hide RetireFile, RequestNotice;
    var delivered := Deliver(outbox, PublishKey(id, l, v));
    RetiringAdds(delivered, id, l, edition, outbox[PublishKey(id, l, v)].asset);
    RequestAdds(RetireFile(delivered, id, l, edition, outbox[PublishKey(id, l, v)].asset), id);
  }

  lemma RetiringAdds(outbox: map<EventKey, Event>, id: Id, l: Locale, edition: Edition, asset: string)
    ensures var after := RetireFile(outbox, id, l, edition, asset);
      && (forall key | key in outbox :: key in after && after[key] == outbox[key])
      && (forall key | key in after && key !in outbox :: key.RetireKey? && key.issue == id)
  {
  }

  lemma RequestAdds(outbox: map<EventKey, Event>, id: Id)
    ensures var after := RequestNotice(outbox, id);
      && (forall key | key in outbox && key != NoticeKey(id) :: key in after && after[key] == outbox[key])
      && (forall key | key in after && key != NoticeKey(id) :: key in outbox)
      && NoticeKey(id) in after
      && (NoticeKey(id) !in outbox || outbox[NoticeKey(id)].status.FailedEvent? ==> LiveEvent(after[NoticeKey(id)]))
      && (NoticeKey(id) in outbox && !outbox[NoticeKey(id)].status.FailedEvent? ==> after[NoticeKey(id)] == outbox[NoticeKey(id)])
  {
  }

  lemma CompletePublishKeeps(b: Tables, id: Id, l: Locale, v: Version)
    requires Inv(b) && CompletePublish(b, id, l, v).Ok?
    ensures Inv(CompletePublish(b, id, l, v).value)
  {
    hide Inv, UniqueInv, LatestInv, RowInv, PublishedRows, NoticeInv, OthersKept, RequestNotice, RetireFile, Advance;
    var key := PublishKey(id, l, v);
    if !b.outbox[key].status.Delivered? {
      var after := CompletePublish(b, id, l, v).value;
      var issue := b.issues[id];
      BusyEdition(b, id, l);
      OwnRows(b, id, l);
      if (l, issue.date) in b.rows { PublishedNumber(b, id, l); }
      AdvanceKeeps(b.rows, b.latest, l, issue.date, RowFor(id, issue, l, b.outbox[key].asset));
      PublishedOutbox(b.outbox, id, l, v, issue.editions[l], WantsNotice(issue, b.outbox[key]));
      PublishedRow(b, id, l, b.outbox[key].asset, after.issues[id]);
      PublishedLands(b, after, id, l, v);
      PublishedKeepsRows(b, after, id, l, v);
      PublishedNotice(b, after, id, l, v);
      LandsKeeps(b, after, id, l);
    }
  }

  lemma PublishedLands(b: Tables, after: Tables, id: Id, l: Locale, v: Version)
    requires CompletePublish(b, id, l, v) == Ok(after) && !b.outbox[PublishKey(id, l, v)].status.Delivered?
    requires forall key | key in b.rows && b.rows[key].issue != id :: key in after.rows && after.rows[key] == b.rows[key]
    ensures Lands(b, after, id, l)
  {
    hide CompletePublish, OthersKept, RequestNotice, RetireFile, Advance, Deliver, WantsNotice, RowFor;
    PublishedIs(b, id, l, v);
    PublishedOutbox(b.outbox, id, l, v, b.issues[id].editions[l], WantsNotice(b.issues[id], b.outbox[PublishKey(id, l, v)]));
    PublishedOthers(b, after, id, (l, b.issues[id].date));
    assert after.issues[id].editions[l].status.Published?;
  }

  /** What completing a publication does, where it does anything. */
  lemma PublishedIs(b: Tables, id: Id, l: Locale, v: Version)
    requires CompletePublish(b, id, l, v).Ok? && !b.outbox[PublishKey(id, l, v)].status.Delivered?
    ensures PublishKey(id, l, v) in b.outbox && id in b.issues && l in b.issues[id].editions
    ensures b.issues[id].version == v && b.issues[id].status.Publishing? && b.issues[id].editions[l].status.Publishing?
    ensures var after := CompletePublish(b, id, l, v).value;
      var issue := b.issues[id];
      var event := b.outbox[PublishKey(id, l, v)];
      var live := Settled(issue, l, PublishedEdition(issue.editions[l], Grant(id, l, v)), Published);
      var outbox := RetireFile(Deliver(b.outbox, PublishKey(id, l, v)), id, l, issue.editions[l], event.asset);
      && after.used == b.used
      && after.issues == b.issues[id := if WantsNotice(issue, event) then live.(notice := NoticePending) else live]
      && after.rows == b.rows[(l, issue.date) := RowFor(id, issue, l, event.asset)]
      && RowFor(id, issue, l, event.asset).issue == id
      && after.outbox == if WantsNotice(issue, event) then RequestNotice(outbox, id) else outbox
  {
    hide RequestNotice, RetireFile, Advance, Deliver, WantsNotice;
  }

  lemma PublishedOthers(b: Tables, after: Tables, id: Id, row: (Locale, Date))
    requires id in b.issues && id in after.issues && after.issues == b.issues[id := after.issues[id]]
    requires forall key | key in b.outbox && key.issue != id :: key in after.outbox && after.outbox[key] == b.outbox[key]
    requires forall key | key in after.outbox && key.issue != id :: key in b.outbox
    requires forall key | key in b.rows && b.rows[key].issue != id :: key in after.rows && after.rows[key] == b.rows[key]
    requires row in after.rows && after.rows[row].issue == id && after.rows == b.rows[row := after.rows[row]]
    ensures OthersKept(b, after, id)
  {
  }

  lemma PublishedKeepsRows(b: Tables, after: Tables, id: Id, l: Locale, v: Version)
    requires CompletePublish(b, id, l, v) == Ok(after) && !b.outbox[PublishKey(id, l, v)].status.Delivered?
    requires PublishedRows(id, b.issues[id], b.rows)
    ensures PublishedRows(id, after.issues[id], after.rows)
  {
    hide RequestNotice, RetireFile, Advance, Deliver;
  }

  lemma PublishedNotice(b: Tables, after: Tables, id: Id, l: Locale, v: Version)
    requires CompletePublish(b, id, l, v) == Ok(after) && !b.outbox[PublishKey(id, l, v)].status.Delivered?
    requires NoticeInv(id, b.issues[id].notice, b.outbox)
    ensures NoticeInv(id, after.issues[id].notice, after.outbox)
  {
    hide RequestNotice, RetireFile, Advance;
    PublishedOutbox(b.outbox, id, l, v, b.issues[id].editions[l], WantsNotice(b.issues[id], b.outbox[PublishKey(id, l, v)]));
  }

  lemma CompleteUnpublishKeeps(b: Tables, id: Id, l: Locale, v: Version)
    requires Inv(b) && CompleteUnpublish(b, id, l, v).Ok?
    ensures Inv(CompleteUnpublish(b, id, l, v).value)
  {
    hide Inv, UniqueInv, LatestInv, RowInv, PublishedRows, NoticeInv, Lands;
    var key := UnpublishKey(id, l, v);
    if !b.outbox[key].status.Delivered? {
      var after := CompleteUnpublish(b, id, l, v).value;
      BusyEdition(b, id, l);
      OwnRowsElsewhere(b, id, l);
      forall k | k in b.rows && b.rows[k].issue == id ensures RowInv(after.issues, k.0, k.1, b.rows[k]) {
        RowAt(b, k);
        IsOwnRow(b.issues, id, k.0, k.1, b.rows[k]);
        LandedRow(b.issues, id, after.issues[id], k.0, k.1, b.rows[k]);
      }
      UnpublishedLands(b, after, id, l, v);
      LandsKeeps(b, after, id, l);
    }
  }

  lemma UnpublishedLands(b: Tables, after: Tables, id: Id, l: Locale, v: Version)
    requires CompleteUnpublish(b, id, l, v) == Ok(after) && !b.outbox[UnpublishKey(id, l, v)].status.Delivered?
    requires b.issues[id].status.Unpublishing? && NoticeInv(id, b.issues[id].notice, b.outbox) && PublishedRows(id, b.issues[id], b.rows)
    ensures Lands(b, after, id, l)
    ensures NoticeInv(id, after.issues[id].notice, after.outbox) && PublishedRows(id, after.issues[id], after.rows)
  {
    hide PublishedRows, NoticeInv, Lands;
    var key := UnpublishKey(id, l, v);
    FallenKeepsRows(id, b.issues[id], l, after.issues[id].status, after.issues[id].editions[l], b.rows);
    EndingKeepsNotice(id, b.issues[id].notice, b.outbox, key, after.outbox[key]);
    EndingLands(b, after, id, l, after.outbox[key]);
  }

  /** The event of the busy edition ends, and nothing else does. */
  lemma EndingLands(b: Tables, after: Tables, id: Id, l: Locale, event: Event)
    requires id in b.issues && l in b.issues[id].editions && id in after.issues && l in after.issues[id].editions
    requires FlightKey(b.issues[id].status, id, l, b.issues[id].version) in b.outbox && !LiveEvent(event)
    requires after == b.(issues := b.issues[id := after.issues[id]],
                         outbox := b.outbox[FlightKey(b.issues[id].status, id, l, b.issues[id].version) := event])
    requires var was, issue := b.issues[id], after.issues[id];
      && issue == was.(status := issue.status, editions := was.editions[l := issue.editions[l]])
      && !Busy(issue.status) && !Busy(issue.editions[l].status)
      && (issue.status.Published? ==> AnyPublished(issue.editions))
    ensures Lands(b, after, id, l)
  {
    hide AnyPublished;
  }

  lemma EndingKeepsNotice(id: Id, notice: Notice, outbox: map<EventKey, Event>, key: EventKey, event: Event)
    requires NoticeInv(id, notice, outbox) && !key.NoticeKey?
    ensures NoticeInv(id, notice, outbox[key := event])
  {
  }

  /** An edition being withdrawn has no row. */
  lemma OwnRowsElsewhere(b: Tables, id: Id, l: Locale)
    requires Inv(b) && id in b.issues && l in b.issues[id].editions && b.issues[id].editions[l].status.Unpublishing?
    ensures forall key | key in b.rows && b.rows[key].issue == id :: key.0 != l
  {
    forall key | key in b.rows && b.rows[key].issue == id ensures key.0 != l { RowAt(b, key); }
  }

  /** A row of the issue survives as long as its own edition does. */
  lemma LandedRow(issues: map<Id, Issue>, id: Id, issue: Issue, k: Locale, d: Date, row: Projection)
    requires RowInv(issues, k, d, row) && row.issue == id && id in issues
    requires issue.date == issues[id].date && issue.number == issues[id].number && issue.version == issues[id].version
    requires k in issue.editions && issue.editions[k].grant.Some? && !issue.editions[k].status.Unpublishing?
    ensures RowInv(issues[id := issue], k, d, row)
  {
  }

  // ---------------------------------------------------------------- the outbox

  lemma WritingKeepsOthers(b: Tables, after: Tables, key: EventKey, event: Event)
    requires key in b.outbox && after == b.(outbox := b.outbox[key := event])
    ensures OthersKept(b, after, key.issue)
  {
  }

  /** A write to an event that is not in flight, or that stays live, and tells no issue
      anything new. */
  lemma WriteKeeps(b: Tables, key: EventKey, status: EventStatus, attempts: nat)
    requires Inv(b) && key in b.outbox
    requires LiveEvent(b.outbox[key]) == (status.Waiting? || status.Processing?) || !(key.PublishKey? || key.UnpublishKey? || key.NoticeKey?)
    requires key.NoticeKey? && key.issue in b.issues && b.issues[key.issue].notice.NoticeFailed? ==> status.FailedEvent?
    ensures Inv(Write(b, key, status, attempts))
  {
    hide Inv, UniqueInv, LatestInv, RowInv, EventInv, IssueHolds, OthersKept;
    var after := Write(b, key, status, attempts);
    TableInv(b);
    WritingKeepsOthers(b, after, key, after.outbox[key]);
    WriteEvents(b, after, key, after.outbox[key]);
    if key.issue in b.issues {
      HoldsAt(b, key.issue);
      WriteHolds(b, after, key, after.outbox[key]);
    }
    forall k | k in b.rows && b.rows[k].issue == key.issue ensures RowInv(after.issues, k.0, k.1, b.rows[k]) { RowAt(b, k); }
    OneIssueKeeps(b, after, key.issue);
  }

  lemma HoldsAt(b: Tables, id: Id)
    requires Inv(b) && id in b.issues
    ensures IssueHolds(b, id)
  {
  }

  lemma WriteEvents(b: Tables, after: Tables, key: EventKey, event: Event)
    requires Inv(b) && key in b.outbox && after == b.(outbox := b.outbox[key := event])
    requires LiveEvent(event) == LiveEvent(b.outbox[key]) || !(key.PublishKey? || key.UnpublishKey?)
    ensures forall k | k in after.outbox && k.issue == key.issue :: EventInv(after.issues, after.used, k, after.outbox[k])
  {
    forall k | k in after.outbox && k.issue == key.issue ensures EventInv(after.issues, after.used, k, after.outbox[k]) {
      assert EventInv(b.issues, b.used, k, b.outbox[k]);
    }
  }

  lemma WriteHolds(b: Tables, after: Tables, key: EventKey, event: Event)
    requires key in b.outbox && key.issue in b.issues && IssueHolds(b, key.issue)
    requires after == b.(outbox := b.outbox[key := event])
    requires LiveEvent(b.outbox[key]) == LiveEvent(after.outbox[key]) || !(key.PublishKey? || key.UnpublishKey? || key.NoticeKey?)
    requires key.NoticeKey? && b.issues[key.issue].notice.NoticeFailed? ==> after.outbox[key].status.FailedEvent?
    ensures IssueHolds(after, key.issue)
  {
    var id := key.issue;
    var issue := b.issues[id];
    forall l | l in issue.editions && Busy(issue.editions[l].status)
      ensures LiveAt(after.outbox, FlightKey(issue.status, id, l, issue.version))
    {
      assert LiveAt(b.outbox, FlightKey(issue.status, id, l, issue.version));
    }
  }

  lemma ClaimKeeps(b: Tables, key: EventKey)
    requires Inv(b)
    ensures Inv(Claim(b, key))
  {
    hide Inv;
    if key in b.outbox && LiveEvent(b.outbox[key]) {
      if key.issue in b.issues && key.NoticeKey? { NoticeOf(b, key.issue); }
      WriteKeeps(b, key, Processing, b.outbox[key].attempts + 1);
    }
  }

  lemma NoticeOf(b: Tables, id: Id)
    requires Inv(b) && id in b.issues
    ensures NoticeInv(id, b.issues[id].notice, b.outbox)
  {
  }

  lemma ReleaseKeeps(b: Tables, key: EventKey, defers: bool)
    requires Inv(b)
    ensures Inv(Release(b, key, defers))
  {
    hide Inv;
    if key in b.outbox && b.outbox[key].status.Processing? {
      if key.issue in b.issues && key.NoticeKey? { NoticeOf(b, key.issue); }
      WriteKeeps(b, key, Waiting, Release(b, key, defers).outbox[key].attempts);
    }
  }

  /** Failing a life-cycle event at any time, even one that is settled already: either it is
      the event of its issue's busy edition, or the issue is not touched. */
  lemma FailFlightKeeps(b: Tables, key: EventKey)
    requires Inv(b) && key in b.outbox && (key.PublishKey? || key.UnpublishKey?)
    ensures Inv(Fail(b, key))
  {
    hide Inv;
    var from := if key.PublishKey? then Publishing else Unpublishing;
    if key.issue in b.issues && InFlight(b.issues[key.issue], key) {
      FailInFlightKeeps(b, key);
    } else {
      FailElsewhere(b, key);
      NotInFlight(b, key);
      WriteKeeps(b, key, FailedEvent, b.outbox[key].attempts);
    }
  }

  lemma NotInFlight(b: Tables, key: EventKey)
    requires Inv(b) && key in b.outbox && (key.PublishKey? || key.UnpublishKey?)
    requires key.issue in b.issues ==> !InFlight(b.issues[key.issue], key)
    ensures !LiveEvent(b.outbox[key])
  {
    assert EventInv(b.issues, b.used, key, b.outbox[key]);
  }

  lemma FailElsewhere(b: Tables, key: EventKey)
    requires Inv(b) && key in b.outbox && (key.PublishKey? || key.UnpublishKey?)
    requires key.issue in b.issues ==> !InFlight(b.issues[key.issue], key)
    ensures Fail(b, key) == Write(b, key, FailedEvent, b.outbox[key].attempts)
  {
    assert EventInv(b.issues, b.used, key, b.outbox[key]);
    if key.issue in b.issues {
      assert FlightInv(key.issue, b.issues[key.issue], b.outbox);
      assert b.issues[key.issue := b.issues[key.issue]] == b.issues;
    }
  }

  lemma FailInFlightKeeps(b: Tables, key: EventKey)
    requires Inv(b) && key in b.outbox && (key.PublishKey? || key.UnpublishKey?)
    requires key.issue in b.issues && InFlight(b.issues[key.issue], key)
    ensures Inv(Fail(b, key))
  {
    hide Inv, UniqueInv, LatestInv, RowInv, PublishedRows, NoticeInv, Lands, Fail;
    var after := Fail(b, key);
    var id := key.issue;
    BusyEdition(b, id, key.locale);
    FailsInFlight(b, key);
    if key.UnpublishKey? { OwnRowsElsewhere(b, id, key.locale); }
    forall k | k in b.rows && b.rows[k].issue == id ensures RowInv(after.issues, k.0, k.1, b.rows[k]) {
      RowAt(b, k);
      IsOwnRow(b.issues, id, k.0, k.1, b.rows[k]);
      LandedRow(b.issues, id, after.issues[id], k.0, k.1, b.rows[k]);
    }
    FailedLands(b, after, key);
    LandsKeeps(b, after, id, key.locale);
  }

  /** Failing the event in flight: the issue and its busy edition fall back. */
  lemma FailsInFlight(b: Tables, key: EventKey)
    requires key in b.outbox && (key.PublishKey? || key.UnpublishKey?)
    requires key.issue in b.issues && InFlight(b.issues[key.issue], key)
    requires b.issues[key.issue].status == b.issues[key.issue].editions[key.locale].status
    ensures var issue := b.issues[key.issue];
      var to := if key.PublishKey? then Draft else UnpublishFailed;
      var fallen := issue.(status := to, editions := issue.editions[key.locale := issue.editions[key.locale].(status := to)]);
      Fail(b, key) == b.(issues := b.issues[key.issue := fallen], outbox := b.outbox[key := b.outbox[key].(status := FailedEvent)])
  {
  }

  lemma FailedLands(b: Tables, after: Tables, key: EventKey)
    requires key in b.outbox && (key.PublishKey? || key.UnpublishKey?)
    requires key.issue in b.issues && InFlight(b.issues[key.issue], key)
    requires b.issues[key.issue].status == b.issues[key.issue].editions[key.locale].status
    requires after == Fail(b, key)
    requires NoticeInv(key.issue, b.issues[key.issue].notice, b.outbox) && PublishedRows(key.issue, b.issues[key.issue], b.rows)
    ensures key.issue in after.issues && Lands(b, after, key.issue, key.locale)
    ensures NoticeInv(key.issue, after.issues[key.issue].notice, after.outbox) && PublishedRows(key.issue, after.issues[key.issue], after.rows)
  {
    hide Fail, PublishedRows, NoticeInv, Lands;
    FailsInFlight(b, key);
    var fallen := after.issues[key.issue];
    FallenKeepsRows(key.issue, b.issues[key.issue], key.locale, fallen.status, fallen.editions[key.locale], b.rows);
    EndingKeepsNotice(key.issue, b.issues[key.issue].notice, b.outbox, key, after.outbox[key]);
    EndingLands(b, after, key.issue, key.locale, after.outbox[key]);
  }

  lemma FallenKeepsRows(id: Id, issue: Issue, l: Locale, status: Status, edition: Edition, rows: map<(Locale, Date), Projection>)
    requires PublishedRows(id, issue, rows) && l in issue.editions && !edition.status.Published?
    ensures PublishedRows(id, issue.(status := status, editions := issue.editions[l := edition]), rows)
  {
  }

  lemma IsOwnRow(issues: map<Id, Issue>, id: Id, k: Locale, d: Date, row: Projection)
    requires RowInv(issues, k, d, row) && row.issue == id
    ensures id in issues && k in issues[id].editions && issues[id].editions[k].grant.Some? && !issues[id].editions[k].status.Unpublishing?
  {
  }

  /** The rest of failEvent: notifications, and events that no issue follows. */
  lemma FailKeeps(b: Tables, key: EventKey)
    requires Inv(b)
    ensures Inv(Fail(b, key))
  {
    hide Inv;
    if key in b.outbox {
      if key.PublishKey? || key.UnpublishKey? { FailFlightKeeps(b, key); }
      else if key.NoticeKey? { FailNoticeKeeps(b, key.issue); }
      else { WriteKeeps(b, key, FailedEvent, b.outbox[key].attempts); }
    }
  }

  lemma NoticeEventsKept(b: Tables, after: Tables, id: Id, event: Event)
    requires Inv(b) && NoticeKey(id) in b.outbox
    requires after.outbox == b.outbox[NoticeKey(id) := event]
    requires after.used == b.used && after.issues.Keys == b.issues.Keys
    requires id in b.issues ==> after.issues[id] == b.issues[id].(notice := after.issues[id].notice)
    ensures forall k | k in after.outbox && k.issue == id :: EventInv(after.issues, after.used, k, after.outbox[k])
  {
    forall k | k in after.outbox && k.issue == id ensures EventInv(after.issues, after.used, k, after.outbox[k]) {
      assert EventInv(b.issues, b.used, k, b.outbox[k]);
    }
  }

  /** A change of notice and notification event only. */
  lemma NoticeKeeps(b: Tables, after: Tables, id: Id, event: Event)
    requires Inv(b) && NoticeKey(id) in b.outbox
    requires after == b.(issues := after.issues, outbox := b.outbox[NoticeKey(id) := event])
    requires after.issues.Keys == b.issues.Keys
    requires after.issues == if id in b.issues then b.issues[id := b.issues[id].(notice := after.issues[id].notice)] else b.issues
    requires id in b.issues ==> NoticeInv(id, after.issues[id].notice, after.outbox)
    ensures Inv(after)
  {
    hide Inv, UniqueInv, LatestInv, RowInv, EventInv, NoticeInv;
    TableInv(b);
    NoticeEventsKept(b, after, id, event);
    if id in b.issues {
      SameMetadataKeepsUnique(b.issues, id, after.issues[id]);
      NoticeHolds(b, after, id, event);
      forall k | k in b.rows && b.rows[k].issue == id ensures RowInv(after.issues, k.0, k.1, b.rows[k]) {
        RowAt(b, k);
        IsOwnRow(b.issues, id, k.0, k.1, b.rows[k]);
        LandedRow(b.issues, id, after.issues[id], k.0, k.1, b.rows[k]);
      }
    } else {
      forall k | k in b.rows && b.rows[k].issue == id ensures RowInv(after.issues, k.0, k.1, b.rows[k]) { RowAt(b, k); }
    }
    OneIssueKeeps(b, after, id);
  }

  lemma NoticeHolds(b: Tables, after: Tables, id: Id, event: Event)
    requires Inv(b) && id in b.issues && id in after.issues
    requires after.outbox == b.outbox[NoticeKey(id) := event]
    requires after.issues[id] == b.issues[id].(notice := after.issues[id].notice) && after.rows == b.rows
    requires NoticeInv(id, after.issues[id].notice, after.outbox)
    ensures IssueHolds(after, id)
  {
    hide Inv, FlightInv, PublishedRows, IssueInv;
    HoldsAt(b, id);
    NoticeKeepsFlight(b, id, event);
  }

  lemma NoticeKeepsFlight(b: Tables, id: Id, event: Event)
    requires id in b.issues && FlightInv(id, b.issues[id], b.outbox)
    ensures forall notice :: FlightInv(id, b.issues[id].(notice := notice), b.outbox[NoticeKey(id) := event])
    ensures forall notice :: PublishedRows(id, b.issues[id], b.rows) ==> PublishedRows(id, b.issues[id].(notice := notice), b.rows)
    ensures forall notice :: IssueInv(b.issues[id]) ==> IssueInv(b.issues[id].(notice := notice))
  {
  }

  lemma FailNoticeKeeps(b: Tables, id: Id)
    requires Inv(b) && NoticeKey(id) in b.outbox
    ensures Inv(Fail(b, NoticeKey(id)))
  {
    hide Inv;
    if id in b.issues {
      NoticeOf(b, id);
      assert b.issues[id := b.issues[id]] == b.issues;
    }
    NoticeKeeps(b, Fail(b, NoticeKey(id)), id, b.outbox[NoticeKey(id)].(status := FailedEvent));
  }

  /** The worker completes a notification it holds the claim of. */
  lemma CompleteNotificationKeeps(b: Tables, id: Id)
    requires Inv(b) && NoticeKey(id) in b.outbox && b.outbox[NoticeKey(id)].status.Processing?
    ensures Inv(CompleteNotification(b, id))
  {
    hide Inv;
    if id in b.issues { NoticeOf(b, id); }
    NoticeKeeps(b, CompleteNotification(b, id), id, b.outbox[NoticeKey(id)].(status := Delivered));
  }

  lemma FailPublishKeeps(b: Tables, id: Id, l: Locale, v: Version)
    requires Inv(b)
    ensures Inv(FailPublish(b, id, l, v))
  {
    hide Inv;
    FailKeeps(b, PublishKey(id, l, v));
    var failed := Fail(b, PublishKey(id, l, v));
    var key := RevokeKey(id, l, v);
    if PublishKey(id, l, v) in b.outbox && key !in failed.outbox {
      FailLeavesKeys(b, PublishKey(id, l, v));
      RevokeAdded(failed, PublishKey(id, l, v), key, FailPublish(b, id, l, v).outbox[key]);
    }
  }

  lemma FailLeavesKeys(b: Tables, key: EventKey)
    ensures Fail(b, key).outbox.Keys == b.outbox.Keys
  {
  }

  lemma RevokeAdded(b: Tables, of: EventKey, key: EventKey, event: Event)
    requires Inv(b) && of in b.outbox && key !in b.outbox && key.RevokeKey? && key.issue == of.issue
    ensures Inv(b.(outbox := b.outbox[key := event]))
  {
    hide Inv, UniqueInv, LatestInv, RowInv, EventInv, IssueHolds;
    var after := b.(outbox := b.outbox[key := event]);
    TableInv(b);
    RevokeEvents(b, of, key, event);
    if key.issue in b.issues {
      HoldsAt(b, key.issue);
      RevokeHolds(b, key, event);
    }
    forall k | k in b.rows && b.rows[k].issue == key.issue ensures RowInv(after.issues, k.0, k.1, b.rows[k]) { RowAt(b, k); }
    OneIssueKeeps(b, after, key.issue);
  }

  lemma RevokeEvents(b: Tables, of: EventKey, key: EventKey, event: Event)
    requires Inv(b) && of in b.outbox && key !in b.outbox && key.RevokeKey? && key.issue == of.issue
    ensures forall k | k in b.outbox[key := event] && k.issue == key.issue :: EventInv(b.issues, b.used, k, b.outbox[key := event][k])
  {
    assert EventInv(b.issues, b.used, of, b.outbox[of]);
    forall k | k in b.outbox && k.issue == key.issue ensures EventInv(b.issues, b.used, k, b.outbox[k]) {}
  }

  lemma RevokeHolds(b: Tables, key: EventKey, event: Event)
    requires key.issue in b.issues && IssueHolds(b, key.issue) && key !in b.outbox && key.RevokeKey?
    ensures IssueHolds(b.(outbox := b.outbox[key := event]), key.issue)
  {
  }
}
