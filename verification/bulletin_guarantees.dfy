/** What holds of bulletins over whole runs: administrators and the worker act in any order,
    and the worker may complete, fail, retry or repeat an event at any time. */
module BulletinGuarantees {
  import opened ContentModel
  import opened Bulletins
  import opened BulletinInvariants

  /** `Finish…` and `Fail…` are the worker's; only completing a notification assumes that the
      worker still holds the claim, which is what the lease is for. */
  datatype Step =
    | Create(id: Id, number: nat, date: Date)
    | EditMetadata(id: Id, expected: Version, number: nat, date: Date)
    | Put(id: Id, locale: Locale, expected: Version, upload: Upload)
    | EditVersion(id: Id, locale: Locale, expected: Version, text: string)
    | RemoveVersion(id: Id, locale: Locale, expected: Version)
    | Restore(id: Id, revision: Version, expected: Version)
    | Remove(id: Id, expected: Version)
    | Publish(id: Id, locale: Locale, expected: Version, notify: bool)
    | Withdraw(id: Id, locale: Locale, expected: Version)
    | ClaimEvent(key: EventKey)
    | ReleaseEvent(key: EventKey, defers: bool)
    | FinishPublish(id: Id, locale: Locale, version: Version)
    | FinishWithdraw(id: Id, locale: Locale, version: Version)
    | FinishNotice(id: Id)
    | FinishCleanup(key: EventKey)
    | FailEvent(key: EventKey)
    | FailAndRevoke(id: Id, locale: Locale, version: Version)

  function After(b: Tables, result: Result<Tables>): Tables {
    if result.Ok? then result.value else b
  }

  ghost function Next(b: Tables, step: Step): Tables {
    match step
    case Create(id, number, date) => After(b, CreateIssue(b, id, number, date))
    case EditMetadata(id, expected, number, date) => After(b, UpdateIssue(b, id, expected, number, date))
    case Put(id, l, expected, upload) => After(b, PutVersion(b, id, l, expected, upload))
    case EditVersion(id, l, expected, text) => After(b, UpdateVersion(b, id, l, expected, text))
    case RemoveVersion(id, l, expected) => After(b, DeleteVersion(b, id, l, expected))
    case Restore(id, revision, expected) => After(b, RestoreIssueRevision(b, id, revision, expected))
    case Remove(id, expected) => After(b, DeleteIssue(b, id, expected))
    case Publish(id, l, expected, notify) => After(b, StartPublish(b, id, l, expected, notify))
    case Withdraw(id, l, expected) => After(b, Unpublish(b, id, l, expected))
    case ClaimEvent(key) => Claim(b, key)
    case ReleaseEvent(key, defers) => Release(b, key, defers)
    case FinishPublish(id, l, v) => After(b, CompletePublish(b, id, l, v))
    case FinishWithdraw(id, l, v) => After(b, CompleteUnpublish(b, id, l, v))
    case FinishNotice(id) =>
      if NoticeKey(id) in b.outbox && b.outbox[NoticeKey(id)].status.Processing? then CompleteNotification(b, id) else b
    case FinishCleanup(key) =>
      if key in b.outbox && (key.RetireKey? || key.RevokeKey?) then Write(b, key, Delivered, b.outbox[key].attempts) else b
    case FailEvent(key) => Fail(b, key)
    case FailAndRevoke(id, l, v) => FailPublish(b, id, l, v)
  }

  ghost function Run(b: Tables, steps: seq<Step>): Tables
    decreases steps
  {
    if steps == [] then b else Run(Next(b, steps[0]), steps[1..])
  }

  /** Issues from before numbering, revisions or publication; or none at all. */
  ghost predicate Initial(b: Tables) {
    && b.rows == map[] && b.latest == map[] && b.outbox == map[]
    && b.issues.Keys <= b.used
    && UniqueInv(b.issues)
    && forall id | id in b.issues ::
         var issue := b.issues[id];
         1 <= issue.version && issue.status.Draft? && issue.notice.NotRequested? && issue.editions == map[] && issue.revisions == map[]
  }

  ghost predicate Reachable(b: Tables) {
    exists start, steps :: Initial(start) && b == Run(start, steps)
  }

  lemma NextKeeps(b: Tables, step: Step)
    requires Inv(b)
    ensures Inv(Next(b, step))
  {
    hide CreateIssue, UpdateIssue, PutVersion, UpdateVersion, DeleteVersion, RestoreIssueRevision, DeleteIssue,
      StartPublish, Unpublish, Claim, Release, CompletePublish, CompleteUnpublish, CompleteNotification, Fail,
      FailPublish;
    hide Inv;
    match step
    case Create(id, number, date) => if CreateIssue(b, id, number, date).Ok? { CreateIssueKeeps(b, id, number, date); }
    case EditMetadata(id, expected, number, date) =>
      if UpdateIssue(b, id, expected, number, date).Ok? { UpdateIssueKeeps(b, id, expected, number, date); }
    case Put(id, l, expected, upload) => if PutVersion(b, id, l, expected, upload).Ok? { PutVersionKeeps(b, id, l, expected, upload); }
    case EditVersion(id, l, expected, text) =>
      if UpdateVersion(b, id, l, expected, text).Ok? { UpdateVersionKeeps(b, id, l, expected, text); }
    case RemoveVersion(id, l, expected) => if DeleteVersion(b, id, l, expected).Ok? { DeleteVersionKeeps(b, id, l, expected); }
    case Restore(id, revision, expected) =>
      if RestoreIssueRevision(b, id, revision, expected).Ok? { RestoreIssueRevisionKeeps(b, id, revision, expected); }
    case Remove(id, expected) => if DeleteIssue(b, id, expected).Ok? { DeleteIssueKeeps(b, id, expected); }
    case Publish(id, l, expected, notify) =>
      if StartPublish(b, id, l, expected, notify).Ok? { StartPublishKeeps(b, id, l, expected, notify); }
    case Withdraw(id, l, expected) => if Unpublish(b, id, l, expected).Ok? { UnpublishKeeps(b, id, l, expected); }
    case ClaimEvent(key) => ClaimKeeps(b, key);
    case ReleaseEvent(key, defers) => ReleaseKeeps(b, key, defers);
    case FinishPublish(id, l, v) => if CompletePublish(b, id, l, v).Ok? { CompletePublishKeeps(b, id, l, v); }
    case FinishWithdraw(id, l, v) => if CompleteUnpublish(b, id, l, v).Ok? { CompleteUnpublishKeeps(b, id, l, v); }
    case FinishNotice(id) =>
      if NoticeKey(id) in b.outbox && b.outbox[NoticeKey(id)].status.Processing? { CompleteNotificationKeeps(b, id); }
    case FinishCleanup(key) =>
      if key in b.outbox && (key.RetireKey? || key.RevokeKey?) { WriteKeeps(b, key, Delivered, b.outbox[key].attempts); }
    case FailEvent(key) => FailKeeps(b, key);
    case FailAndRevoke(id, l, v) => FailPublishKeeps(b, id, l, v);
  }

  lemma {:induction false} RunKeeps(b: Tables, steps: seq<Step>)
    requires Inv(b)
    ensures Inv(Run(b, steps))
    decreases steps
  {
    hide Inv, Next;
    if steps != [] {
      NextKeeps(b, steps[0]);
      RunKeeps(Next(b, steps[0]), steps[1..]);
    }
  }

  lemma ReachableHolds(b: Tables)
    requires Reachable(b)
    ensures Inv(b)
  {
    var start, steps :| Initial(start) && b == Run(start, steps);
    assert Inv(start);
    RunKeeps(start, steps);
  }

  // ---------------------------------------------------------------- the cache

  /** The issue rows of edition `l`. */
  function RowsIn(b: Tables, l: Locale): set<Projection> {
    set key | key in b.rows && key.0 == l :: b.rows[key]
  }

  /** The latest cache is the maximum: in every reachable state an edition has a latest row
      exactly when it has a published issue row; the latest row is one of those rows, the same
      issue, version and payload; and its issue number is the greatest. */
  lemma LatestIsMaximum(b: Tables, l: Locale)
    requires Reachable(b)
    ensures l in b.latest <==> RowsIn(b, l) != {}
    ensures l in b.latest ==> b.latest[l].row in RowsIn(b, l)
    ensures l in b.latest ==> forall row | row in RowsIn(b, l) :: Rank(row.payload.number) <= Rank(b.latest[l].row.payload.number)
  {
    hide Reachable, UniqueInv, EventInv, RowInv, IssueInv, FlightInv, NoticeInv, PublishedRows;
    ReachableHolds(b);
    if l in b.latest {
      var row := b.latest[l].row;
      assert (l, row.payload.date) in b.rows;
      assert row in RowsIn(b, l);
    }
    if RowsIn(b, l) != {} {
      var row :| row in RowsIn(b, l);
    }
  }

  /** Numbered issues leave no ties, so then the latest row is determined. */
  lemma LatestIsDetermined(b: Tables, l: Locale, row: Projection)
    requires Reachable(b) && l in b.latest && row in RowsIn(b, l) && row.payload.number.Some? && 1 <= row.payload.number.value
    requires forall other | other in RowsIn(b, l) :: Rank(other.payload.number) <= Rank(row.payload.number)
    ensures b.latest[l].row == row
  {
    hide Inv, RowInv, Reachable;
    ReachableHolds(b);
    LatestIsMaximum(b, l);
    var best := b.latest[l].row;
    SameNumberSameRow(b, l, row, best);
  }

  lemma SameNumberSameRow(b: Tables, l: Locale, p: Projection, q: Projection)
    requires Inv(b) && p in RowsIn(b, l) && q in RowsIn(b, l)
    requires p.payload.number.Some? && p.payload.number == q.payload.number
    ensures p == q
  {
    hide LatestInv, FlightInv, NoticeInv, IssueInv, PublishedRows, EventInv;
    var k :| k in b.rows && k.0 == l && b.rows[k] == p;
    var m :| m in b.rows && m.0 == l && b.rows[m] == q;
    assert RowInv(b.issues, k.0, k.1, p) && RowInv(b.issues, m.0, m.1, q);
    assert p.issue == q.issue;
  }

  /** Every public row shows its issue as it is dated and numbered, at a version the issue
      reached, in an edition holding a grant; every published edition has its row. */
  lemma RowsAreBacked(b: Tables, l: Locale, d: Date)
    requires Reachable(b)
    ensures (l, d) in b.rows ==>
      var row := b.rows[(l, d)];
      && row.issue in b.issues
      && b.issues[row.issue].date == d
      && row.payload.date == d && row.payload.number == b.issues[row.issue].number
      && row.version <= b.issues[row.issue].version
      && l in b.issues[row.issue].editions && b.issues[row.issue].editions[l].grant.Some?
    ensures forall id | id in b.issues && b.issues[id].date == d && l in b.issues[id].editions && b.issues[id].editions[l].status.Published? ::
      (l, d) in b.rows && b.rows[(l, d)].issue == id
  {
    ReachableHolds(b);
    if (l, d) in b.rows { assert RowInv(b.issues, l, d, b.rows[(l, d)]); }
    forall id | id in b.issues && b.issues[id].date == d && l in b.issues[id].editions && b.issues[id].editions[l].status.Published?
      ensures (l, d) in b.rows && b.rows[(l, d)].issue == id
    {
      assert PublishedRows(id, b.issues[id], b.rows);
    }
  }

  // ---------------------------------------------------------------- lockstep

  predicate IsLifeCycle(key: EventKey, id: Id) {
    (key.PublishKey? || key.UnpublishKey?) && key.issue == id
  }

  /** The busy editions of an issue, and its life-cycle events still to be settled. */
  function BusyIn(issue: Issue): set<Locale> {
    set l | l in issue.editions && Busy(issue.editions[l].status)
  }

  function LiveFor(b: Tables, id: Id): set<EventKey> {
    set key | key in b.outbox && IsLifeCycle(key, id) && LiveEvent(b.outbox[key])
  }

  /** Nothing gets stuck: an issue is publishing or unpublishing exactly when one of its
      editions is, and then exactly one is, in the same state, and exactly one of its events is
      live, the one for that edition at the issue's version. */
  lemma Lockstep(b: Tables, id: Id)
    requires Reachable(b) && id in b.issues
    ensures var issue := b.issues[id];
      if Busy(issue.status) then
        exists l ::
          && BusyIn(issue) == {l}
          && issue.editions[l].status == issue.status
          && LiveFor(b, id) == {FlightKey(issue.status, id, l, issue.version)}
      else BusyIn(issue) == {} && LiveFor(b, id) == {}
    ensures b.issues[id].status.Published? ==> AnyPublished(b.issues[id].editions)
  {
    hide Reachable, Inv, EventInv, NoticeInv, PublishedRows;
    ReachableHolds(b);
    HoldsAt(b, id);
    var issue := b.issues[id];
    forall key | key in LiveFor(b, id) ensures InFlight(issue, key) && Busy(issue.status) { LiveIsInFlightOf(b, id, key); }
    if Busy(issue.status) {
      var l :| l in issue.editions && Busy(issue.editions[l].status);
      FlightIsUnique(b, id, l);
      hide IssueInv, FlightInv;
      assert BusyIn(issue) == {l};
      assert LiveFor(b, id) == {FlightKey(issue.status, id, l, issue.version)};
    }
  }

  lemma LiveIsInFlightOf(b: Tables, id: Id, key: EventKey)
    requires Inv(b) && id in b.issues && key in LiveFor(b, id)
    ensures InFlight(b.issues[id], key) && Busy(b.issues[id].status)
  {
    assert IssueHolds(b, id);
    assert EventInv(b.issues, b.used, key, b.outbox[key]);
  }

  /** Completing the live event of a publishing issue always succeeds and publishes it. */
  lemma CompletionIsNeverStale(b: Tables, id: Id, l: Locale, v: Version)
    requires Reachable(b) && LiveAt(b.outbox, PublishKey(id, l, v))
    ensures CompletePublish(b, id, l, v).Ok?
    ensures var after := CompletePublish(b, id, l, v).value;
      && after.issues[id].status.Published? && after.issues[id].editions[l].status.Published?
      && after.issues[id].editions[l].grant == Some(Grant(id, l, v))
      && after.rows[(l, b.issues[id].date)].version == v
  {
    hide Inv, Reachable, RequestNotice, RetireFile, Advance;
    ReachableHolds(b);
    LiveIsInFlight(b, PublishKey(id, l, v));
  }

  /** And so does completing the live event of an unpublishing issue. */
  lemma WithdrawalIsNeverStale(b: Tables, id: Id, l: Locale, v: Version)
    requires Reachable(b) && LiveAt(b.outbox, UnpublishKey(id, l, v))
    ensures CompleteUnpublish(b, id, l, v).Ok?
    ensures var after := CompleteUnpublish(b, id, l, v).value;
      && !Busy(after.issues[id].status) && after.issues[id].editions[l].status.Unpublished?
      && after.issues[id].editions[l].grant.None?
  {
    hide Inv, Reachable;
    ReachableHolds(b);
    LiveIsInFlight(b, UnpublishKey(id, l, v));
  }

  lemma LiveIsInFlight(b: Tables, key: EventKey)
    requires Inv(b) && LiveAt(b.outbox, key) && (key.PublishKey? || key.UnpublishKey?)
    ensures key.issue in b.issues && InFlight(b.issues[key.issue], key)
    ensures b.issues[key.issue].status == b.issues[key.issue].editions[key.locale].status
    ensures key.locale in EDITIONS
  {
    assert EventInv(b.issues, b.used, key, b.outbox[key]);
    assert IssueHolds(b, key.issue);
  }

  // ---------------------------------------------------------------- notifications

  /** The notice an issue should show for its notification event. */
  function Mirrored(outbox: map<EventKey, Event>, id: Id): Notice {
    var key := NoticeKey(id);
    if key !in outbox then NotRequested
    else match outbox[key].status
      case Delivered => NoticeQueued
      case FailedEvent => NoticeFailed
      case _ => NoticePending
  }

  ghost predicate Mirrors(b: Tables) {
    forall id | id in b.issues :: b.issues[id].notice == Mirrored(b.outbox, id)
  }

  /** Nothing about notifications changed. */
  ghost predicate Quiet(b: Tables, after: Tables) {
    && (forall id | id in after.issues :: id in b.issues && after.issues[id].notice == b.issues[id].notice)
    && (forall id :: NoticeKey(id) in after.outbox <==> NoticeKey(id) in b.outbox)
    && (forall id | NoticeKey(id) in after.outbox :: after.outbox[NoticeKey(id)] == b.outbox[NoticeKey(id)])
  }

  predicate AboutNotices(step: Step) {
    || step.Create? || step.FinishPublish? || step.FinishNotice?
    || ((step.ClaimEvent? || step.ReleaseEvent? || step.FailEvent?) && step.key.NoticeKey?)
  }

  lemma FinishIsQuiet(b: Tables, id: Id, issue: Issue)
    requires id in b.issues && issue.notice == b.issues[id].notice && Finish(b, id, issue).Ok?
    ensures Quiet(b, Finish(b, id, issue).value)
  {
  }

  lemma EditsAreQuiet(b: Tables, step: Step)
    requires step.EditMetadata? || step.Put? || step.EditVersion? || step.RemoveVersion? || step.Restore? || step.Remove?
    ensures Quiet(b, Next(b, step))
  {
    hide Finish, Quiet, Taken, HasPublicState, HasIssueRow;
    NothingIsQuiet(b);
    match step
    case EditMetadata(id, expected, number, date) =>
      if UpdateIssue(b, id, expected, number, date).Ok? { FinishIsQuiet(b, id, b.issues[id].(number := Some(number), date := date)); }
    case Put(id, l, expected, upload) =>
      if PutVersion(b, id, l, expected, upload).Ok? {
        var issue := b.issues[id];
        FinishIsQuiet(b, id, issue.(status := Draft, editions := issue.editions[l := Uploaded(EditionAt(issue, l), upload)]));
      }
    case EditVersion(id, l, expected, text) =>
      if UpdateVersion(b, id, l, expected, text).Ok? {
        var issue := b.issues[id];
        FinishIsQuiet(b, id, issue.(status := Draft, editions := issue.editions[l := issue.editions[l].(text := text, status := Draft)]));
      }
    case RemoveVersion(id, l, expected) =>
      if DeleteVersion(b, id, l, expected).Ok? {
        var issue := b.issues[id];
        FinishIsQuiet(b, id, issue.(status := Draft, editions := issue.editions - {l}));
      }
    case Restore(id, revision, expected) =>
      if RestoreIssueRevision(b, id, revision, expected).Ok? {
        var issue := b.issues[id];
        var snapshot := issue.revisions[revision];
        FinishIsQuiet(b, id, issue.(number := snapshot.number, date := snapshot.date, status := Draft,
                                    editions := RestoredEditions(issue.editions, snapshot.uploads)));
      }
    case Remove(id, expected) => if DeleteIssue(b, id, expected).Ok? { RemovalIsQuiet(b, id); }
  }

  lemma NothingIsQuiet(b: Tables)
    ensures Quiet(b, b)
  {
  }

  lemma RemovalIsQuiet(b: Tables, id: Id)
    ensures Quiet(b, b.(issues := b.issues - {id}))
  {
  }

  lemma StartsAreQuiet(b: Tables, step: Step)
    requires step.Publish? || step.Withdraw?
    ensures Quiet(b, Next(b, step))
  {
    hide StartPublish, Unpublish, Quiet;
    NothingIsQuiet(b);
    match step
    case Publish(id, l, expected, notify) =>
      if StartPublish(b, id, l, expected, notify).Ok? { PublishStartIsQuiet(b, id, l, expected, notify); }
    case Withdraw(id, l, expected) => if Unpublish(b, id, l, expected).Ok? { WithdrawalStartIsQuiet(b, id, l, expected); }
  }

  lemma PublishStartIsQuiet(b: Tables, id: Id, l: Locale, expected: Version, notify: bool)
    requires StartPublish(b, id, l, expected, notify).Ok?
    ensures Quiet(b, StartPublish(b, id, l, expected, notify).value)
  {
    hide LockIssue;
    LockedIssue(b, id, expected);
  }

  lemma WithdrawalStartIsQuiet(b: Tables, id: Id, l: Locale, expected: Version)
    requires Unpublish(b, id, l, expected).Ok?
    ensures Quiet(b, Unpublish(b, id, l, expected).value)
  {
    hide LockIssue, Relatest;
    LockedIssue(b, id, expected);
  }

  lemma WorkIsQuiet(b: Tables, step: Step)
    requires step.FinishWithdraw? || step.FinishCleanup?
    requires !AboutNotices(step)
    ensures Quiet(b, Next(b, step))
  {
  }

  lemma WritesAreQuiet(b: Tables, key: EventKey, defers: bool)
    requires !key.NoticeKey?
    ensures Quiet(b, Claim(b, key)) && Quiet(b, Release(b, key, defers))
  {
  }

  lemma FailureIsQuiet(b: Tables, key: EventKey)
    requires !key.NoticeKey?
    ensures Quiet(b, Fail(b, key))
  {
  }

  lemma RevocationIsQuiet(b: Tables, id: Id, l: Locale, v: Version)
    ensures Quiet(b, FailPublish(b, id, l, v))
  {
    FailureIsQuiet(b, PublishKey(id, l, v));
    hide Fail;
  }

  lemma OtherStepsAreQuiet(b: Tables, step: Step)
    requires !AboutNotices(step)
    ensures Quiet(b, Next(b, step))
  {
    hide Quiet, Claim, Release, Fail, FailPublish, CompleteUnpublish, StartPublish, Unpublish;
    hide UpdateIssue, PutVersion, UpdateVersion, DeleteVersion, RestoreIssueRevision, DeleteIssue, Write;
    match step
    case ClaimEvent(key) => WritesAreQuiet(b, key, false);
    case ReleaseEvent(key, defers) => WritesAreQuiet(b, key, defers);
    case FailEvent(key) => FailureIsQuiet(b, key);
    case FailAndRevoke(id, l, v) => RevocationIsQuiet(b, id, l, v);
    case FinishWithdraw(_, _, _) => WorkIsQuiet(b, step);
    case FinishCleanup(_) => WorkIsQuiet(b, step);
    case Publish(_, _, _, _) => StartsAreQuiet(b, step);
    case Withdraw(_, _, _) => StartsAreQuiet(b, step);
    case _ => EditsAreQuiet(b, step);
  }

  /** What completing a publication does to notices and their events. */
  lemma PublishNotices(b: Tables, id: Id, l: Locale, v: Version)
    requires CompletePublish(b, id, l, v).Ok? && !b.outbox[PublishKey(id, l, v)].status.Delivered?
    ensures var after := CompletePublish(b, id, l, v).value;
      var asks := WantsNotice(b.issues[id], b.outbox[PublishKey(id, l, v)]);
      && after.issues.Keys == b.issues.Keys
      && after.issues[id].notice == (if asks then NoticePending else b.issues[id].notice)
      && (forall other | other in b.issues && other != id :: after.issues[other] == b.issues[other])
      && (forall other | other != id :: Mirrored(after.outbox, other) == Mirrored(b.outbox, other))
      && (asks && !Mirrored(b.outbox, id).NoticeQueued? ==> Mirrored(after.outbox, id).NoticePending?)
      && (!asks ==> Mirrored(after.outbox, id) == Mirrored(b.outbox, id))
  {
    hide CompletePublish, Advance, RetireFile, Deliver, WantsNotice, RowFor, RequestNotice, Mirrored;
    PublishedIs(b, id, l, v);
    NoticeAfterPublishing(b.outbox, id, l, v, b.issues[id].editions[l]);
  }

  lemma NoticeAfterPublishing(outbox: map<EventKey, Event>, id: Id, l: Locale, v: Version, edition: Edition)
    requires PublishKey(id, l, v) in outbox
    ensures var retired := RetireFile(Deliver(outbox, PublishKey(id, l, v)), id, l, edition, outbox[PublishKey(id, l, v)].asset);
      var asked := RequestNotice(retired, id);
      && (forall other :: Mirrored(retired, other) == Mirrored(outbox, other))
      && (forall other | other != id :: Mirrored(asked, other) == Mirrored(outbox, other))
      && (!Mirrored(outbox, id).NoticeQueued? ==> Mirrored(asked, id).NoticePending?)
  {
    hide RetireFile, RequestNotice;
    var delivered := Deliver(outbox, PublishKey(id, l, v));
    RetiringAdds(delivered, id, l, edition, outbox[PublishKey(id, l, v)].asset);
    var retired := RetireFile(delivered, id, l, edition, outbox[PublishKey(id, l, v)].asset);
    RequestAdds(retired, id);
    assert NoticeKey(id) in retired <==> NoticeKey(id) in outbox;
    forall other ensures NoticeKey(other) in retired <==> NoticeKey(other) in outbox {}
    forall other | other != id ensures NoticeKey(other) in RequestNotice(retired, id) <==> NoticeKey(other) in outbox {}
  }

  /** A notification that was queued stays queued for as long as the issue exists. */
  lemma QueuedStays(b: Tables, step: Step, id: Id)
    requires Inv(b) && id in b.issues && b.issues[id].notice.NoticeQueued? && id in Next(b, step).issues
    ensures Next(b, step).issues[id].notice.NoticeQueued?
  {
    if AboutNotices(step) {
      NoticeStepsKeepQueued(b, step, id);
    } else {
      OtherStepsAreQuiet(b, step);
      hide Next, Inv;
    }
  }

  lemma NoticeStepIs(b: Tables, step: Step)
    requires AboutNotices(step)
    ensures Next(b, step) ==
      match step
      case Create(id, number, date) => After(b, CreateIssue(b, id, number, date))
      case FinishPublish(id, l, v) => After(b, CompletePublish(b, id, l, v))
      case FinishNotice(id) =>
        if NoticeKey(id) in b.outbox && b.outbox[NoticeKey(id)].status.Processing? then CompleteNotification(b, id) else b
      case ClaimEvent(key) => Claim(b, key)
      case ReleaseEvent(key, defers) => Release(b, key, defers)
      case FailEvent(key) => Fail(b, key)
      case _ => b
  {
    hide CreateIssue, CompletePublish, CompleteNotification, Claim, Release, Fail;
  }

  lemma NoticeStepsKeepQueued(b: Tables, step: Step, id: Id)
    requires Inv(b) && AboutNotices(step) && id in b.issues && b.issues[id].notice.NoticeQueued? && id in Next(b, step).issues
    ensures Next(b, step).issues[id].notice.NoticeQueued?
  {
    hide Next, Inv, UniqueInv, LatestInv, Claim, Release, Fail, CompleteNotification, CreateIssue, CompletePublish;
    NoticeStepIs(b, step);
    TableInv(b);
    match step
    case FinishPublish(other, l, v) => PublishQueued(b, other, l, v, id);
    case Create(other, number, date) => if CreateIssue(b, other, number, date).Ok? { CreatesNew(b, other, number, date); }
    case FinishNotice(other) => NoticeWorkQueued(b, other, NoticeKey(other), false, id);
    case ClaimEvent(key) => NoticeWorkQueued(b, key.issue, key, false, id);
    case ReleaseEvent(key, defers) => NoticeWorkQueued(b, key.issue, key, defers, id);
    case FailEvent(key) => NoticeWorkQueued(b, key.issue, key, false, id);
  }

  lemma NoticeWorkQueued(b: Tables, of: Id, key: EventKey, defers: bool, id: Id)
    requires id in b.issues && b.issues[id].notice.NoticeQueued? && key.NoticeKey?
    ensures IsQueued(Claim(b, key), id) && IsQueued(Release(b, key, defers), id)
    ensures IsQueued(Fail(b, key), id) && IsQueued(CompleteNotification(b, of), id)
  {
  }

  predicate IsQueued(b: Tables, id: Id) {
    id in b.issues && b.issues[id].notice.NoticeQueued?
  }

  lemma CreatesNew(b: Tables, id: Id, number: nat, date: Date)
    requires CreateIssue(b, id, number, date).Ok?
    ensures id !in b.used
    ensures forall other | other in b.issues && other != id ::
      other in CreateIssue(b, id, number, date).value.issues && CreateIssue(b, id, number, date).value.issues[other] == b.issues[other]
  {
  }

  lemma PublishQueued(b: Tables, id: Id, l: Locale, v: Version, other: Id)
    requires other in b.issues && b.issues[other].notice.NoticeQueued?
    ensures var after := After(b, CompletePublish(b, id, l, v)); other in after.issues && after.issues[other].notice.NoticeQueued?
  {
    hide Advance, RequestNotice, RetireFile;
  }

  lemma {:induction false} QueuedStaysInRuns(b: Tables, steps: seq<Step>, id: Id)
    requires Inv(b) && id in b.issues && b.issues[id].notice.NoticeQueued?
    requires forall n | 0 <= n <= |steps| :: id in Run(b, steps[..n]).issues
    ensures id in Run(b, steps).issues && Run(b, steps).issues[id].notice.NoticeQueued?
    decreases steps
  {
    hide Inv, Next;
    if steps == [] {
      assert steps[..0] == steps;
    } else {
      var next := Next(b, steps[0]);
      NextKeeps(b, steps[0]);
      forall n | 0 <= n <= |steps[1..]| ensures id in Run(next, steps[1..][..n]).issues {
        assert steps[..n + 1][0] == steps[0] && steps[..n + 1][1..] == steps[1..][..n];
        assert id in Run(b, steps[..n + 1]).issues;
      }
      assert Run(next, steps[1..][..0]) == next && id in next.issues;
      QueuedStays(b, steps[0], id);
      assert steps[..|steps|] == steps;
      QueuedStaysInRuns(next, steps[1..], id);
    }
  }

  /** The one step that makes notice and event disagree: failing a notification event that was
      delivered already, for an issue that still exists. */
  predicate FailsDelivered(b: Tables, step: Step) {
    && step.FailEvent? && step.key.NoticeKey?
    && step.key in b.outbox && b.outbox[step.key].status.Delivered?
    && step.key.issue in b.issues
  }

  /** Notices mirror their events up to that step, and no further. */
  lemma MirrorBreaksExactly(b: Tables, step: Step)
    requires Inv(b) && Mirrors(b)
    ensures Mirrors(Next(b, step)) <==> !FailsDelivered(b, step)
  {
    TableInv(b);
    hide UpdateIssue, PutVersion, UpdateVersion, DeleteVersion, RestoreIssueRevision, DeleteIssue, StartPublish, Unpublish;
    hide CompletePublish, CompleteUnpublish, FailPublish, Inv;
    hide Claim, Release, Fail, CompleteNotification, CreateIssue, Mirrors;
    if !AboutNotices(step) {
      OtherStepsAreQuiet(b, step);
      QuietMirrors(b, Next(b, step));
    }
    else if step.FinishPublish? { PublishMirrors(b, step.id, step.locale, step.version); }
    else if step.Create? { CreateMirrors(b, step.id, step.number, step.date); }
    else if step.FinishNotice? { FinishNoticeMirrors(b, step.id); }
    else if step.FailEvent? { FailNoticeMirrors(b, step.key.issue); }
    else { LeaseMirrors(b, step.key.issue, step.ReleaseEvent? && step.defers); }
  }

  lemma QuietMirrors(b: Tables, after: Tables)
    requires Mirrors(b) && Quiet(b, after)
    ensures Mirrors(after)
  {
  }

  lemma FinishNoticeMirrors(b: Tables, id: Id)
    requires Mirrors(b)
    ensures NoticeKey(id) in b.outbox && b.outbox[NoticeKey(id)].status.Processing? ==> Mirrors(CompleteNotification(b, id))
  {
  }

  lemma LeaseMirrors(b: Tables, id: Id, defers: bool)
    requires Mirrors(b)
    ensures Mirrors(Claim(b, NoticeKey(id))) && Mirrors(Release(b, NoticeKey(id), defers))
  {
  }

  lemma FailNoticeMirrors(b: Tables, id: Id)
    requires Mirrors(b)
    ensures Mirrors(Fail(b, NoticeKey(id))) <==>
            !(NoticeKey(id) in b.outbox && b.outbox[NoticeKey(id)].status.Delivered? && id in b.issues)
  {
    hide Fail;
    NoticeFails(b, id);
    hide Mirrored;
    var after := Fail(b, NoticeKey(id));
    if id in b.issues { assert id in after.issues; }
  }

  lemma NoticeFails(b: Tables, id: Id)
    ensures var after := Fail(b, NoticeKey(id));
      && after.issues.Keys == b.issues.Keys
      && (forall other | other != id && other in b.issues ::
            after.issues[other] == b.issues[other] && Mirrored(after.outbox, other) == Mirrored(b.outbox, other))
      && (id in b.issues && NoticeKey(id) !in b.outbox ==> after.issues[id] == b.issues[id] && Mirrored(after.outbox, id) == Mirrored(b.outbox, id))
      && (id in b.issues && NoticeKey(id) in b.outbox ==>
            && Mirrored(after.outbox, id).NoticeFailed?
            && after.issues[id].notice == (if b.issues[id].notice.NoticePending? then NoticeFailed else b.issues[id].notice))
      && (NoticeKey(id) in b.outbox ==> match b.outbox[NoticeKey(id)].status
            case Delivered => Mirrored(b.outbox, id).NoticeQueued?
            case FailedEvent => Mirrored(b.outbox, id).NoticeFailed?
            case _ => Mirrored(b.outbox, id).NoticePending?)
  {
  }

  lemma CreateMirrors(b: Tables, id: Id, number: nat, date: Date)
    requires Inv(b) && Mirrors(b)
    ensures Mirrors(After(b, CreateIssue(b, id, number, date)))
  {
    hide Inv;
    if CreateIssue(b, id, number, date).Ok? { FreshId(b, id); }
  }

  lemma PublishMirrors(b: Tables, id: Id, l: Locale, v: Version)
    requires Mirrors(b)
    ensures Mirrors(After(b, CompletePublish(b, id, l, v)))
  {
    if CompletePublish(b, id, l, v).Ok? && !b.outbox[PublishKey(id, l, v)].status.Delivered? {
      PublishNotices(b, id, l, v);
      PublishAsksUnqueued(b, id, l, v);
      hide CompletePublish, Mirrored;
    }
  }

  lemma PublishAsksUnqueued(b: Tables, id: Id, l: Locale, v: Version)
    requires Mirrors(b) && CompletePublish(b, id, l, v).Ok? && !b.outbox[PublishKey(id, l, v)].status.Delivered?
    ensures id in b.issues && (WantsNotice(b.issues[id], b.outbox[PublishKey(id, l, v)]) ==> !Mirrored(b.outbox, id).NoticeQueued?)
  {
  }

  /** notifyBulletin and the disposal of its error, for an event that is processing. */
  function Notify(b: Tables, max: nat, id: Id, queue: Fault, permanent: bool, complete: Fault): Tables {
    if queue.Fine? then
      var done := if complete.LostBefore? then b else CompleteNotification(b, id);
      if complete.Fine? then done else Dispose(done, max, id, false)
    else Dispose(b, max, id, permanent)
  }

  function Dispose(b: Tables, max: nat, id: Id, permanent: bool): Tables {
    var key := NoticeKey(id);
    if key in b.outbox && (permanent || b.outbox[key].attempts >= max) then Fail(b, key) else Release(b, key, false)
  }

  /** In the worker's terms: the mirror breaks exactly when the commit of the completion took
      effect on the last attempt and still reported an error. */
  lemma NotifyMirrors(b: Tables, max: nat, id: Id, queue: Fault, permanent: bool, complete: Fault)
    requires Inv(b) && Mirrors(b) && id in b.issues && NoticeKey(id) in b.outbox && b.outbox[NoticeKey(id)].status.Processing?
    ensures Mirrors(Notify(b, max, id, queue, permanent, complete)) <==>
            !(queue.Fine? && complete.LostAfter? && b.outbox[NoticeKey(id)].attempts >= max)
  {
    hide Inv, Mirrors, Fail, Release;
    FinishNoticeMirrors(b, id);
    DisposalMirrors(b, max, id, permanent);
    DisposalMirrors(b, max, id, false);
    ProcessingNotice(b, id);
    DisposalMirrors(CompleteNotification(b, id), max, id, false);
  }

  lemma ProcessingNotice(b: Tables, id: Id)
    requires Mirrors(b) && id in b.issues && NoticeKey(id) in b.outbox && b.outbox[NoticeKey(id)].status.Processing?
    ensures var done := CompleteNotification(b, id);
      && id in done.issues && NoticeKey(id) in done.outbox
      && done.outbox[NoticeKey(id)] == b.outbox[NoticeKey(id)].(status := Delivered)
  {
  }

  lemma DisposalMirrors(b: Tables, max: nat, id: Id, permanent: bool)
    requires Mirrors(b) && id in b.issues && NoticeKey(id) in b.outbox
    ensures Mirrors(Dispose(b, max, id, permanent)) <==>
            !(b.outbox[NoticeKey(id)].status.Delivered? && (permanent || b.outbox[NoticeKey(id)].attempts >= max))
  {
    hide Mirrors, Fail, Release;
    FailNoticeMirrors(b, id);
    LeaseMirrors(b, id, false);
  }

  // ---------------------------------------------------------------- the mirror does break

  lemma {:induction false} RunThenNext(b: Tables, steps: seq<Step>, step: Step)
    ensures Run(b, steps + [step]) == Next(Run(b, steps), step)
    decreases steps
  {
    hide Next;
    if steps == [] {
      assert [step][1..] == [] && ([] + [step])[0] == step;
      assert steps + [step] == [step];
    } else {
      assert (steps + [step])[0] == steps[0] && (steps + [step])[1..] == steps[1..] + [step];
      RunThenNext(Next(b, steps[0]), steps[1..], step);
    }
  }

  lemma NextIsReachable(b: Tables, step: Step)
    requires Reachable(b)
    ensures Reachable(Next(b, step))
  {
    hide Next, Run;
    var start, steps :| Initial(start) && b == Run(start, steps);
    RunThenNext(start, steps, step);
  }

  function Fresh(): Tables {
    Tables(map[], map[], map[], map[], {})
  }

  /** One issue, its English edition uploaded and put up for publication with a notification. */
  function Started(): Tables {
    var snapshot := Snapshot(Some(1), 7, map[En := Upload("text", "file")]);
    Tables(
      map["i" := Issue(Some(1), 7, Publishing, 3, NotRequested, map[En := Edition("text", "file", Publishing, None, None, None)], map[2 := snapshot])],
      map[], map[], map[PublishKey("i", En, 3) := Event(Waiting, 0, "file", None, true)], {"i"})
  }

  lemma FreshIsReachable()
    ensures Reachable(Fresh())
  {
    assert Run(Fresh(), []) == Fresh() && Initial(Fresh());
  }

  lemma StartedIsReachable()
    ensures Reachable(Started())
  {
    hide CreateIssue, PutVersion, StartPublish;
    var empty := Fresh();
    FreshIsReachable();
    hide Reachable;
    NextIsReachable(empty, Create("i", 1, 7));
    var created := Next(empty, Create("i", 1, 7));
    NextIsReachable(created, Put("i", En, 1, Upload("text", "file")));
    var put := Next(created, Put("i", En, 1, Upload("text", "file")));
    NextIsReachable(put, Publish("i", En, 2, true));
    assert Next(put, Publish("i", En, 2, true)) == Started() by { StartedComputes(); }
  }

  lemma StartedComputes()
    ensures CreateIssue(Fresh(), "i", 1, 7).Ok?
    ensures var created := CreateIssue(Fresh(), "i", 1, 7).value;
      && PutVersion(created, "i", En, 1, Upload("text", "file")).Ok?
    ensures StartPublish(PutVersion(CreateIssue(Fresh(), "i", 1, 7).value, "i", En, 1, Upload("text", "file")).value, "i", En, 2, true) == Ok(Started())
  {
    var created := CreateIssue(Fresh(), "i", 1, 7).value;
    var issue := created.issues["i"];
    var edited := issue.(status := Draft, version := 2, editions := map[En := Edition("text", "file", Draft, None, None, None)]);
    assert SnapshotOf(edited) == Snapshot(Some(1), 7, map[En := Upload("text", "file")]);
    var put := PutVersion(created, "i", En, 1, Upload("text", "file")).value;
    assert put.issues["i"] == edited.(revisions := map[2 := SnapshotOf(edited)]);
    var started := StartPublish(put, "i", En, 2, true).value;
    assert started.issues["i"] == Started().issues["i"];
    assert started.issues == Started().issues && started.outbox == Started().outbox && started.used == Started().used;
  }

  lemma ClaimAndFinish(b: Tables, id: Id)
    requires id in b.issues && b.issues[id].notice.NoticePending? && LiveAt(b.outbox, NoticeKey(id))
    ensures var queued := Next(Next(b, ClaimEvent(NoticeKey(id))), FinishNotice(id));
      var failed := Next(queued, FailEvent(NoticeKey(id)));
      && id in failed.issues && failed.issues[id].notice.NoticeQueued?
      && Mirrored(failed.outbox, id).NoticeFailed?
  {
    hide Next;
    var key := NoticeKey(id);
    ClaimedNotice(b, id);
    var claimed := Next(b, ClaimEvent(key));
    FinishedNotice(claimed, id);
    FailedNotice(Next(claimed, FinishNotice(id)), id);
  }

  lemma ClaimedNotice(b: Tables, id: Id)
    requires id in b.issues && b.issues[id].notice.NoticePending? && LiveAt(b.outbox, NoticeKey(id))
    ensures var after := Next(b, ClaimEvent(NoticeKey(id)));
      && id in after.issues && after.issues[id].notice.NoticePending?
      && NoticeKey(id) in after.outbox && after.outbox[NoticeKey(id)].status.Processing?
  {
  }

  lemma FinishedNotice(b: Tables, id: Id)
    requires id in b.issues && b.issues[id].notice.NoticePending? && NoticeKey(id) in b.outbox && b.outbox[NoticeKey(id)].status.Processing?
    ensures var after := Next(b, FinishNotice(id));
      id in after.issues && after.issues[id].notice.NoticeQueued? && NoticeKey(id) in after.outbox
  {
  }

  lemma FailedNotice(b: Tables, id: Id)
    requires id in b.issues && b.issues[id].notice.NoticeQueued? && NoticeKey(id) in b.outbox
    ensures var after := Next(b, FailEvent(NoticeKey(id)));
      id in after.issues && after.issues[id].notice.NoticeQueued? && Mirrored(after.outbox, id).NoticeFailed?
  {
  }

  /** A reachable state in which an issue shows its notification queued while the event is
      marked failed. */
  lemma MirrorDoesBreak() returns (b: Tables)
    ensures Reachable(b) && "i" in b.issues
    ensures b.issues["i"].notice.NoticeQueued? && Mirrored(b.outbox, "i").NoticeFailed?
  {
    hide Next;
    StartedIsReachable();
    var started := Started();
    StartedPublishes();
    NextIsReachable(started, FinishPublish("i", En, 3));
    var published := Next(started, FinishPublish("i", En, 3));
    NextIsReachable(published, ClaimEvent(NoticeKey("i")));
    var claimed := Next(published, ClaimEvent(NoticeKey("i")));
    NextIsReachable(claimed, FinishNotice("i"));
    var queued := Next(claimed, FinishNotice("i"));
    NextIsReachable(queued, FailEvent(NoticeKey("i")));
    b := Next(queued, FailEvent(NoticeKey("i")));
    ClaimAndFinish(published, "i");
  }

  lemma StartedPublishes()
    ensures var published := Next(Started(), FinishPublish("i", En, 3));
      "i" in published.issues && published.issues["i"].notice.NoticePending? && LiveAt(published.outbox, NoticeKey("i"))
  {
    PublishNotices(Started(), "i", En, 3);
  }
}
