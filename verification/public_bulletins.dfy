/** What readers of the bulletins see: which text and which file a public row shows, after any
    run of editing, publishing and withdrawing. */
module PublicBulletins {
  import opened ContentModel
  import opened Bulletins
  import opened BulletinInvariants
  import opened BulletinGuarantees

  /** `v` is the last revision up to version `at`. */
  predicate IsLast(revisions: map<Version, Snapshot>, v: Version, at: Version) {
    v in revisions && v <= at && forall w | w in revisions && w <= at :: w <= v
  }

  /** The revision holds the issue as it is, edition by edition. */
  ghost predicate Describes(s: Snapshot, issue: Issue) {
    && s.number == issue.number && s.date == issue.date
    && (forall l :: l in s.uploads <==> l in issue.editions)
    && forall l | l in issue.editions ::
         s.uploads[l].text == issue.editions[l].text && s.uploads[l].asset == issue.editions[l].asset
  }

  /** The payload is what the revision holds of an edition. */
  predicate Records(s: Snapshot, l: Locale, payload: Public) {
    && s.number == payload.number && s.date == payload.date
    && l in s.uploads && s.uploads[l].text == payload.text && s.uploads[l].asset == payload.asset
  }

  /** The edition is on its way out, or got stuck there. */
  predicate Leaving(edition: Edition) {
    edition.status.Unpublishing? || edition.status.UnpublishFailed?
  }

  /** A status editions do not have. */
  predicate Foreign(status: Status) {
    status.PublishFailed? || status.PendingRemoval?
  }

  ghost predicate IssueShown(issue: Issue) {
    && (issue.editions != map[] ==> exists v :: IsLast(issue.revisions, v, issue.version) && Describes(issue.revisions[v], issue))
    && (forall l | l in issue.editions && Leaving(issue.editions[l]) :: issue.editions[l].grant.Some?)
    && (forall l | l in issue.editions && issue.editions[l].status.Published? :: issue.editions[l].retiringAsset.None?)
    && (forall l | l in issue.editions && issue.editions[l].status.Unpublished? :: issue.editions[l].grant.None?)
    && (forall l | l in issue.editions :: !Foreign(issue.editions[l].status))
  }

  ghost predicate LastRecords(issue: Issue, l: Locale, row: Projection) {
    exists v :: IsLast(issue.revisions, v, row.version) && Records(issue.revisions[v], l, row.payload)
  }

  /** The edition reads as the row does. */
  predicate Reads(edition: Edition, payload: Public) {
    edition.text == payload.text && edition.asset == payload.asset
  }

  /** The event is settled, and was for the file of the payload. */
  predicate IsOf(outbox: map<EventKey, Event>, key: EventKey, payload: Public) {
    key in outbox && !LiveEvent(outbox[key]) && outbox[key].asset == payload.asset
  }

  ghost predicate RowShown(b: Tables, l: Locale, row: Projection) {
    && IsOf(b.outbox, PublishKey(row.issue, l, row.version), row.payload)
    && (row.issue in b.issues ==>
          && LastRecords(b.issues[row.issue], l, row)
          && (l in b.issues[row.issue].editions && b.issues[row.issue].editions[l].status.Published? ==>
                Reads(b.issues[row.issue].editions[l], row.payload))
          && (l in b.issues[row.issue].editions && b.issues[row.issue].editions[l].retiringAsset.Some? ==>
                b.issues[row.issue].editions[l].retiringAsset.value == row.payload.asset))
  }

  /** A publication still to be settled is for the file the edition holds. */
  ghost predicate EventShown(b: Tables, key: EventKey)
    requires key in b.outbox
  {
    key.PublishKey? && LiveEvent(b.outbox[key]) && key.issue in b.issues && key.locale in b.issues[key.issue].editions ==>
      b.outbox[key].asset == b.issues[key.issue].editions[key.locale].asset
  }

  ghost predicate Shown(b: Tables) {
    && (forall key | key in b.rows :: RowShown(b, key.0, b.rows[key]))
    && (forall key | key in b.outbox :: EventShown(b, key))
    && (forall id | id in b.issues :: IssueShown(b.issues[id]))
  }

  // ---------------------------------------------------------------- what a step leaves alone

  /** Revisions only grow, past the version; no edition turns published, or changes while it is
      published or being published; and only the file of a published edition starts to retire. */
  predicate Carries(before: Issue, after: Issue) {
    && before.version <= after.version
    && (forall v | v in before.revisions :: v in after.revisions && after.revisions[v] == before.revisions[v])
    && (forall v | v in after.revisions && v !in before.revisions :: before.version < v)
    && (forall l | l in after.editions && (after.editions[l].status.Published? || after.editions[l].status.Publishing?) ::
          && l in before.editions
          && (after.editions[l].status.Published? ==> before.editions[l].status.Published?)
          && after.editions[l].text == before.editions[l].text && after.editions[l].asset == before.editions[l].asset)
    && (forall l | l in after.editions && l in before.editions && after.editions[l].retiringAsset.Some? ::
          || after.editions[l].retiringAsset == before.editions[l].retiringAsset
          || (before.editions[l].status.Published? && after.editions[l].retiringAsset.value == before.editions[l].asset))
  }

  ghost predicate IssuesCarry(before: map<Id, Issue>, after: map<Id, Issue>) {
    forall id | id in after && id in before :: Carries(before[id], after[id])
  }

  /** Publication events stay, for the same file, and none that is settled comes back to life. */
  ghost predicate EventsCarry(before: map<EventKey, Event>, after: map<EventKey, Event>) {
    forall key | key in before && key.PublishKey? ::
      key in after && after[key].asset == before[key].asset && (LiveEvent(after[key]) ==> LiveEvent(before[key]))
  }

  predicate NoneQueued(before: map<EventKey, Event>, after: map<EventKey, Event>) {
    forall key | key in after && key.PublishKey? :: key in before
  }

  predicate NoneShown(before: map<(Locale, Date), Projection>, after: map<(Locale, Date), Projection>) {
    forall key | key in after :: key in before && after[key] == before[key]
  }

  lemma RowCarries(b: Tables, after: Tables, key: (Locale, Date))
    requires Inv(b) && key in b.rows && RowShown(b, key.0, b.rows[key]) && IssuesCarry(b.issues, after.issues) && EventsCarry(b.outbox, after.outbox)
    ensures RowShown(after, key.0, b.rows[key])
  {
    hide UniqueInv, LatestInv, FlightInv, NoticeInv, PublishedRows, IssueInv, EventInv, Inv;
    RowAt(b, key);
    var row := b.rows[key];
    if row.issue in after.issues {
      var v :| IsLast(b.issues[row.issue].revisions, v, row.version) && Records(b.issues[row.issue].revisions[v], key.0, row.payload);
      assert IsLast(after.issues[row.issue].revisions, v, row.version);
    }
  }

  lemma EventCarries(b: Tables, after: Tables, key: EventKey)
    requires Inv(b) && Inv(after) && key in b.outbox && EventShown(b, key) && IssuesCarry(b.issues, after.issues) && EventsCarry(b.outbox, after.outbox) && key in after.outbox
    ensures EventShown(after, key)
  {
    hide UniqueInv, LatestInv, FlightInv, NoticeInv, PublishedRows, IssueInv, RowInv, Inv;
    EventAt(b, key);
    EventAt(after, key);
  }

  /** A step that moves no edition to published and puts no publication in the outbox. */
  lemma StepCarries(b: Tables, after: Tables)
    requires Inv(b) && Inv(after) && Shown(b)
    requires IssuesCarry(b.issues, after.issues) && EventsCarry(b.outbox, after.outbox)
    requires NoneShown(b.rows, after.rows) && NoneQueued(b.outbox, after.outbox)
    requires forall id | id in after.issues :: IssueShown(after.issues[id])
    ensures Shown(after)
  {
    hide Inv, RowShown, EventShown, IssueShown, IssuesCarry, EventsCarry;
    forall key | key in after.rows ensures RowShown(after, key.0, after.rows[key]) { RowCarries(b, after, key); }
    forall key | key in after.outbox ensures EventShown(after, key) {
      if key in b.outbox { EventCarries(b, after, key); } else { OtherEventShown(after, key); }
    }
  }

  lemma OtherEventShown(b: Tables, key: EventKey)
    requires key in b.outbox && !key.PublishKey?
    ensures EventShown(b, key)
  {
  }

  /** The issue as before, but for the states of its editions: those that leave hold a grant, those
      that are published have nothing to retire, and those that left hold no grant. */
  predicate SameWork(before: Issue, after: Issue) {
    && before.number == after.number && before.date == after.date
    && before.version <= after.version && before.revisions == after.revisions
    && before.editions.Keys == after.editions.Keys
    && forall l | l in before.editions ::
         && before.editions[l].text == after.editions[l].text && before.editions[l].asset == after.editions[l].asset
         && (Leaving(after.editions[l]) ==>
               after.editions[l].grant.Some? || (Leaving(before.editions[l]) && before.editions[l].grant == after.editions[l].grant))
         && (after.editions[l].status.Published? ==>
               || after.editions[l].retiringAsset.None?
               || (before.editions[l].status.Published? && before.editions[l].retiringAsset == after.editions[l].retiringAsset))
         && (after.editions[l].status.Unpublished? ==>
               after.editions[l].grant.None? || (before.editions[l].status.Unpublished? && before.editions[l].grant == after.editions[l].grant))
         && (Foreign(after.editions[l].status) ==> Foreign(before.editions[l].status))
  }

  lemma SameWorkDescribes(before: Issue, after: Issue)
    requires IssueInv(before) && IssueShown(before) && SameWork(before, after)
    ensures IssueShown(after)
  {
    if after.editions != map[] {
      assert before.editions != map[] by { assert before.editions.Keys == after.editions.Keys; }
      var v :| IsLast(before.revisions, v, before.version) && Describes(before.revisions[v], before);
      assert IsLast(after.revisions, v, after.version) && Describes(after.revisions[v], after);
    }
  }

  // ---------------------------------------------------------------- step by step

  /** An edit of an idle issue that is stored with its revision. */
  lemma EditShows(b: Tables, id: Id, issue: Issue)
    requires Inv(b) && Shown(b) && id in b.issues && Finish(b, id, issue).Ok? && Inv(Finish(b, id, issue).value)
    requires issue.version == b.issues[id].version && issue.revisions == b.issues[id].revisions
    requires forall l | l in issue.editions ::
      && !issue.editions[l].status.Publishing?
      && (Leaving(issue.editions[l]) || issue.editions[l].status.Unpublished? || Foreign(issue.editions[l].status) ==> l in b.issues[id].editions && issue.editions[l] == b.issues[id].editions[l])
      && (issue.editions[l].status.Published? ==> l in b.issues[id].editions && issue.editions[l] == b.issues[id].editions[l])
    requires forall l | l in issue.editions && l in b.issues[id].editions && issue.editions[l].retiringAsset.Some? ::
      || issue.editions[l].retiringAsset == b.issues[id].editions[l].retiringAsset
      || (b.issues[id].editions[l].status.Published? && issue.editions[l].retiringAsset.value == b.issues[id].editions[l].asset)
    ensures Shown(Finish(b, id, issue).value)
  {
    hide Inv, RowShown, EventShown;
    assert IssueShown(b.issues[id]);
    hide Shown;
    StoredDescribes(b, id, issue);
    EditCarries(b, id, issue);
    hide Finish;
    EditedShows(b, Finish(b, id, issue).value, id);
  }

  lemma EditedShows(b: Tables, after: Tables, id: Id)
    requires Inv(b) && Shown(b) && Inv(after) && id in b.issues && id in after.issues
    requires after == b.(issues := b.issues[id := after.issues[id]]) && Carries(b.issues[id], after.issues[id]) && IssueShown(after.issues[id])
    ensures Shown(after)
  {
    hide Inv, RowShown, EventShown, IssueShown;
    StepCarries(b, after);
  }

  lemma EditCarries(b: Tables, id: Id, issue: Issue)
    requires id in b.issues && Finish(b, id, issue).Ok?
    requires issue.version == b.issues[id].version && issue.revisions == b.issues[id].revisions
    requires forall l | l in issue.editions ::
      && !issue.editions[l].status.Publishing?
      && (issue.editions[l].status.Published? ==> l in b.issues[id].editions && issue.editions[l] == b.issues[id].editions[l])
    requires forall l | l in issue.editions && l in b.issues[id].editions && issue.editions[l].retiringAsset.Some? ::
      || issue.editions[l].retiringAsset == b.issues[id].editions[l].retiringAsset
      || (b.issues[id].editions[l].status.Published? && issue.editions[l].retiringAsset.value == b.issues[id].editions[l].asset)
    ensures Finish(b, id, issue).value == b.(issues := b.issues[id := Finish(b, id, issue).value.issues[id]])
    ensures Carries(b.issues[id], Finish(b, id, issue).value.issues[id])
  {
  }

  lemma StoredDescribes(b: Tables, id: Id, issue: Issue)
    requires Inv(b) && id in b.issues && Finish(b, id, issue).Ok?
    requires issue.version == b.issues[id].version && issue.revisions == b.issues[id].revisions
    requires forall l | l in issue.editions && Leaving(issue.editions[l]) :: issue.editions[l].grant.Some?
    requires forall l | l in issue.editions && issue.editions[l].status.Published? :: issue.editions[l].retiringAsset.None?
    requires forall l | l in issue.editions && issue.editions[l].status.Unpublished? :: issue.editions[l].grant.None?
    requires forall l | l in issue.editions :: !Foreign(issue.editions[l].status)
    ensures var stored := Finish(b, id, issue).value.issues[id];
      && IssueShown(stored)
      && stored.version in stored.revisions && Describes(stored.revisions[stored.version], stored)
  {
    hide Inv, FlightInv, NoticeInv, PublishedRows;
    HoldsAt(b, id);
    var stored := Finish(b, id, issue).value.issues[id];
    assert IsLast(stored.revisions, stored.version, stored.version);
  }

  lemma EditsShow(b: Tables, step: Step)
    requires Inv(b) && Shown(b) && Inv(Next(b, step))
    requires step.EditMetadata? || step.Put? || step.EditVersion? || step.RemoveVersion? || step.Restore?
    ensures Shown(Next(b, step))
  {
    hide Finish, LockIssue, Shown, Taken, HasIssueRow, Inv, IssueInv;
    LockedIssue(b, step.id, step.expected);
    if step.id in b.issues && !Busy(b.issues[step.id].status) {
      IdleIssue(b, step.id);
      if step.Put? || step.Restore? { UploadsShow(b, step); }
      else {
        var id, issue := step.id, b.issues[step.id];
        match step {
          case EditMetadata(_, expected, number, date) =>
            if UpdateIssue(b, id, expected, number, date).Ok? { EditShows(b, id, issue.(number := Some(number), date := date)); }
          case EditVersion(_, l, expected, text) =>
            if UpdateVersion(b, id, l, expected, text).Ok? {
              EditShows(b, id, issue.(status := Draft, editions := issue.editions[l := issue.editions[l].(text := text, status := Draft)]));
            }
          case RemoveVersion(_, l, expected) =>
            if DeleteVersion(b, id, l, expected).Ok? { EditShows(b, id, issue.(status := Draft, editions := issue.editions - {l})); }
        }
      }
    }
  }

  lemma UploadsShow(b: Tables, step: Step)
    requires Inv(b) && Shown(b) && Inv(Next(b, step)) && (step.Put? || step.Restore?)
    requires step.id in b.issues && forall l | l in b.issues[step.id].editions :: !Busy(b.issues[step.id].editions[l].status)
    ensures Shown(Next(b, step))
  {
    hide Finish, LockIssue, Shown, Taken, HasIssueRow, Inv;
    LockedIssue(b, step.id, step.expected);
    var id, issue := step.id, b.issues[step.id];
    match step {
      case Put(_, l, expected, upload) =>
        if PutVersion(b, id, l, expected, upload).Ok? {
          EditShows(b, id, issue.(status := Draft, editions := issue.editions[l := Uploaded(EditionAt(issue, l), upload)]));
        }
      case Restore(_, revision, expected) =>
        if RestoreIssueRevision(b, id, revision, expected).Ok? {
          var snapshot := issue.revisions[revision];
          EditShows(b, id, issue.(number := snapshot.number, date := snapshot.date, status := Draft,
                                  editions := RestoredEditions(issue.editions, snapshot.uploads)));
        }
    }
  }

  /** No issue changes in what a reader may see. */
  ghost predicate IssuesSame(before: map<Id, Issue>, after: map<Id, Issue>) {
    && (forall id | id in after && id in before :: SameWork(before[id], after[id]) && Carries(before[id], after[id]))
    && (forall id | id in after && id !in before :: IssueShown(after[id]))
  }

  ghost predicate Unseen(b: Tables, after: Tables) {
    && IssuesSame(b.issues, after.issues) && EventsCarry(b.outbox, after.outbox)
    && NoneShown(b.rows, after.rows) && NoneQueued(b.outbox, after.outbox)
  }

  lemma UnseenShows(b: Tables, after: Tables)
    requires Inv(b) && Shown(b) && Inv(after) && Unseen(b, after)
    ensures Shown(after)
  {
    hide Inv, RowShown, EventShown, EventsCarry, NoneShown, NoneQueued, IssueInv, FlightInv, NoticeInv, PublishedRows;
    assert IssuesCarry(b.issues, after.issues);
    forall id | id in after.issues ensures IssueShown(after.issues[id]) {
      hide IssueShown, SameWork, Carries;
      if id in b.issues { HoldsAt(b, id); SameWorkDescribes(b.issues[id], after.issues[id]); }
    }
    hide IssuesSame, IssuesCarry, IssueShown;
    StepCarries(b, after);
  }

  lemma SameIssues(issues: map<Id, Issue>)
    ensures IssuesSame(issues, issues)
    ensures forall id :: IssuesSame(issues, issues - {id})
  {
    hide IssueShown;
  }

  lemma OneIssueSame(issues: map<Id, Issue>, id: Id, issue: Issue)
    requires if id in issues then SameWork(issues[id], issue) && Carries(issues[id], issue) else IssueShown(issue)
    ensures IssuesSame(issues, issues[id := issue])
  {
    hide IssueShown;
  }

  lemma SameEvents(outbox: map<EventKey, Event>)
    ensures EventsCarry(outbox, outbox) && NoneQueued(outbox, outbox)
  {
  }

  lemma OneEventCarries(outbox: map<EventKey, Event>, key: EventKey, event: Event)
    requires key.PublishKey? ==> key in outbox && event.asset == outbox[key].asset && (LiveEvent(event) ==> LiveEvent(outbox[key]))
    ensures EventsCarry(outbox, outbox[key := event]) && NoneQueued(outbox, outbox[key := event])
  {
  }

  lemma CreationUnseen(b: Tables, id: Id, number: nat, date: Date)
    requires Inv(b) && CreateIssue(b, id, number, date).Ok?
    ensures Unseen(b, CreateIssue(b, id, number, date).value)
  {
    hide Taken, Inv, IssuesSame, EventsCarry, NoneQueued, Carries, SameWork;
    FreshId(b, id);
    SameEvents(b.outbox);
    OneIssueSame(b.issues, id, CreateIssue(b, id, number, date).value.issues[id]);
  }

  lemma RemovalUnseen(b: Tables, id: Id, expected: Version)
    requires DeleteIssue(b, id, expected).Ok?
    ensures Unseen(b, DeleteIssue(b, id, expected).value)
  {
    hide HasPublicState, IssuesSame, EventsCarry, NoneQueued;
    SameEvents(b.outbox);
    SameIssues(b.issues);
  }

  lemma WriteUnseen(b: Tables, key: EventKey, status: EventStatus, attempts: nat)
    requires key in b.outbox && (key.PublishKey? && (status.Waiting? || status.Processing?) ==> LiveEvent(b.outbox[key]))
    ensures Unseen(b, Write(b, key, status, attempts))
  {
    hide IssuesSame, EventsCarry, NoneQueued;
    SameIssues(b.issues);
    OneEventCarries(b.outbox, key, b.outbox[key].(status := status, attempts := attempts));
  }

  lemma NothingUnseen(b: Tables)
    ensures Unseen(b, b)
  {
    hide IssuesSame, EventsCarry, NoneQueued;
    SameIssues(b.issues);
    SameEvents(b.outbox);
  }

  lemma LeaseUnseen(b: Tables, key: EventKey, defers: bool)
    ensures Unseen(b, Claim(b, key)) && Unseen(b, Release(b, key, defers))
  {
    hide Unseen, Write;
    NothingUnseen(b);
    if key in b.outbox && LiveEvent(b.outbox[key]) { WriteUnseen(b, key, Processing, b.outbox[key].attempts + 1); }
    if key in b.outbox && b.outbox[key].status.Processing? {
      var attempts := b.outbox[key].attempts;
      WriteUnseen(b, key, Waiting, if defers && 0 < attempts then attempts - 1 else attempts);
    }
  }

  lemma NotificationUnseen(b: Tables, id: Id)
    ensures Unseen(b, CompleteNotification(b, id))
  {
    hide IssuesSame, EventsCarry, NoneQueued;
    SameIssues(b.issues);
    SameEvents(b.outbox);
    if NoticeKey(id) in b.outbox { OneEventCarries(b.outbox, NoticeKey(id), b.outbox[NoticeKey(id)].(status := Delivered)); }
    if id in b.issues { OneIssueSame(b.issues, id, b.issues[id].(notice := NoticeQueued)); }
  }

  lemma FallenSame(issue: Issue, l: Locale, v: Version, from: Status, to: Status)
    requires to.Draft? || (from.Unpublishing? && to.UnpublishFailed?)
    ensures SameWork(issue, FallBack(issue, l, v, from, to)) && Carries(issue, FallBack(issue, l, v, from, to))
  {
    hide SameWork, Carries;
    FallenSameWork(issue, l, v, from, to);
    FallenCarries(issue, l, v, from, to);
  }

  lemma FallenSameWork(issue: Issue, l: Locale, v: Version, from: Status, to: Status)
    requires to.Draft? || (from.Unpublishing? && to.UnpublishFailed?)
    ensures SameWork(issue, FallBack(issue, l, v, from, to))
  {
  }

  lemma FallenCarries(issue: Issue, l: Locale, v: Version, from: Status, to: Status)
    requires to.Draft? || to.UnpublishFailed?
    ensures Carries(issue, FallBack(issue, l, v, from, to))
  {
  }

  lemma FailureUnseen(b: Tables, key: EventKey)
    ensures Unseen(b, Fail(b, key))
  {
    hide IssuesSame, EventsCarry, NoneQueued, FallBack, Carries, SameWork;
    SameIssues(b.issues);
    SameEvents(b.outbox);
    if key in b.outbox {
      OneEventCarries(b.outbox, key, b.outbox[key].(status := FailedEvent));
      if key.issue in b.issues { FailedIssueSame(b.issues, key); }
    }
  }

  lemma FailedIssueSame(issues: map<Id, Issue>, key: EventKey)
    requires key.issue in issues
    ensures var issue := issues[key.issue];
      match key
      case PublishKey(id, l, v) => IssuesSame(issues, issues[id := FallBack(issue, l, v, Publishing, Draft)])
      case UnpublishKey(id, l, v) => IssuesSame(issues, issues[id := FallBack(issue, l, v, Unpublishing, UnpublishFailed)])
      case _ => IssuesSame(issues, issues[key.issue := issue.(notice := NoticeFailed)])
  {
    hide IssuesSame, FallBack;
    var issue := issues[key.issue];
    match key {
      case PublishKey(id, l, v) =>
        FallenSame(issue, l, v, Publishing, Draft);
        OneIssueSame(issues, id, FallBack(issue, l, v, Publishing, Draft));
      case UnpublishKey(id, l, v) =>
        FallenSame(issue, l, v, Unpublishing, UnpublishFailed);
        OneIssueSame(issues, id, FallBack(issue, l, v, Unpublishing, UnpublishFailed));
      case _ => OneIssueSame(issues, key.issue, issue.(notice := NoticeFailed));
    }
  }

  lemma CompensationUnseen(b: Tables, id: Id, l: Locale, v: Version)
    ensures Unseen(b, FailPublish(b, id, l, v))
  {
    hide Fail, IssuesSame;
    FailureUnseen(b, PublishKey(id, l, v));
  }

  lemma EnteredSame(issue: Issue, l: Locale, status: Status)
    requires l in issue.editions && Busy(status) && (status.Unpublishing? ==> issue.editions[l].grant.Some?)
    ensures SameWork(issue, Entered(issue, l, status)) && Carries(issue, Entered(issue, l, status))
  {
  }

  lemma WithdrawalUnseen(b: Tables, id: Id, l: Locale, expected: Version)
    requires Unpublish(b, id, l, expected).Ok?
    ensures Unseen(b, Unpublish(b, id, l, expected).value)
  {
    hide LockIssue, Relatest, IssuesSame, EventsCarry, NoneQueued, Entered, SameWork, Carries;
    LockedIssue(b, id, expected);
    EnteredSame(b.issues[id], l, Unpublishing);
    OneIssueSame(b.issues, id, Entered(b.issues[id], l, Unpublishing));
    var key := UnpublishKey(id, l, expected + 1);
    OneEventCarries(b.outbox, key, Unpublish(b, id, l, expected).value.outbox[key]);
  }

  lemma WithdrawnSame(issue: Issue, l: Locale, edition: Edition, status: Status)
    requires l in issue.editions && edition.text == issue.editions[l].text && edition.asset == issue.editions[l].asset
    requires edition.status.Unpublished? && edition.retiringAsset.None? && edition.grant.None?
    ensures var after := issue.(status := status, editions := issue.editions[l := edition]); SameWork(issue, after) && Carries(issue, after)
  {
  }

  lemma WithdrawnUnseen(b: Tables, id: Id, l: Locale, v: Version)
    requires CompleteUnpublish(b, id, l, v).Ok?
    ensures Unseen(b, CompleteUnpublish(b, id, l, v).value)
  {
    hide IssuesSame, EventsCarry, NoneQueued, SameWork, Carries, AnyPublished;
    var key := UnpublishKey(id, l, v);
    if b.outbox[key].status.Delivered? { NothingUnseen(b); }
    else {
      var issue := b.issues[id];
      var after := CompleteUnpublish(b, id, l, v).value;
      WithdrawnSame(issue, l, after.issues[id].editions[l], after.issues[id].status);
      OneIssueSame(b.issues, id, after.issues[id]);
      OneEventCarries(b.outbox, key, b.outbox[key].(status := Delivered));
    }
  }

  lemma StartShows(b: Tables, id: Id, l: Locale, expected: Version, notify: bool)
    requires Inv(b) && Shown(b) && StartPublish(b, id, l, expected, notify).Ok? && Inv(StartPublish(b, id, l, expected, notify).value)
    ensures Shown(StartPublish(b, id, l, expected, notify).value)
  {
    hide Inv, StartPublish, RowShown, EventShown, EventsCarry, IssuesCarry, IssueShown, SameWork;
    var after := StartPublish(b, id, l, expected, notify).value;
    var key := PublishKey(id, l, expected + 1);
    StartCarries(b, id, l, expected, notify);
    StartedEventShown(b, id, l, expected, notify);
    AllRowsCarry(b, after);
    AllEventsCarry(b, after, key);
    OneIssueDescribed(b, after, id);
  }

  lemma AllRowsCarry(b: Tables, after: Tables)
    requires Inv(b) && Shown(b) && IssuesCarry(b.issues, after.issues) && EventsCarry(b.outbox, after.outbox)
    ensures forall key | key in b.rows :: RowShown(after, key.0, b.rows[key])
  {
    hide Inv, RowShown, EventShown, EventsCarry, IssuesCarry, IssueShown;
    forall key | key in b.rows ensures RowShown(after, key.0, b.rows[key]) { RowCarries(b, after, key); }
  }

  lemma AllEventsCarry(b: Tables, after: Tables, but: EventKey)
    requires Inv(b) && Inv(after) && Shown(b) && IssuesCarry(b.issues, after.issues) && EventsCarry(b.outbox, after.outbox)
    ensures forall key | key in after.outbox && key in b.outbox && key != but :: EventShown(after, key)
  {
    hide Inv, RowShown, EventShown, EventsCarry, IssuesCarry, IssueShown;
    forall key | key in after.outbox && key in b.outbox && key != but ensures EventShown(after, key) { EventCarries(b, after, key); }
  }

  lemma OneIssueDescribed(b: Tables, after: Tables, id: Id)
    requires Inv(b) && Shown(b) && id in b.issues && id in after.issues && SameWork(b.issues[id], after.issues[id])
    requires forall i | i in after.issues && i != id :: i in b.issues && after.issues[i] == b.issues[i]
    ensures forall i | i in after.issues :: IssueShown(after.issues[i])
  {
    hide Inv, RowShown, EventShown, IssueShown, SameWork, IssueInv, FlightInv, NoticeInv, PublishedRows;
    HoldsAt(b, id);
    SameWorkDescribes(b.issues[id], after.issues[id]);
  }

  lemma StartedEventShown(b: Tables, id: Id, l: Locale, expected: Version, notify: bool)
    requires StartPublish(b, id, l, expected, notify).Ok?
    ensures var after := StartPublish(b, id, l, expected, notify).value;
      PublishKey(id, l, expected + 1) in after.outbox && EventShown(after, PublishKey(id, l, expected + 1))
  {
    hide LockIssue;
    LockedIssue(b, id, expected);
  }

  lemma StartCarries(b: Tables, id: Id, l: Locale, expected: Version, notify: bool)
    requires StartPublish(b, id, l, expected, notify).Ok?
    ensures var after := StartPublish(b, id, l, expected, notify).value;
      && IssuesCarry(b.issues, after.issues) && EventsCarry(b.outbox, after.outbox) && after.rows == b.rows
      && id in b.issues && id in after.issues && SameWork(b.issues[id], after.issues[id])
      && (forall i | i in after.issues && i != id :: i in b.issues && after.issues[i] == b.issues[i])
      && (forall k | k in after.outbox && k != PublishKey(id, l, expected + 1) :: k in b.outbox)
  {
    hide LockIssue, Entered, SameWork;
    LockedIssue(b, id, expected);
    EnteredSame(b.issues[id], l, Publishing);
  }

  // ---------------------------------------------------------------- a completed publication

  /** What a completed publication does to rows, issues and publication events. */
  lemma CompletionIs(b: Tables, id: Id, l: Locale, v: Version)
    requires CompletePublish(b, id, l, v).Ok? && !b.outbox[PublishKey(id, l, v)].status.Delivered?
    ensures var after := CompletePublish(b, id, l, v).value;
      && id in b.issues && l in b.issues[id].editions && PublishKey(id, l, v) in b.outbox
      && b.issues[id].version == v && b.issues[id].editions[l].status.Publishing?
      && Completed(b.issues, after.issues, id, l)
      && Settles(b.outbox, after.outbox, PublishKey(id, l, v))
      && after.rows == b.rows[(l, b.issues[id].date) :=
           Projection(id, v, Public(b.issues[id].number, b.issues[id].date, b.issues[id].editions[l].text, b.outbox[PublishKey(id, l, v)].asset))]
  {
    hide CompletePublish, RetireFile, RequestNotice, WantsNotice, Completed, Settles;
    PublishedIs(b, id, l, v);
    var edition, event := b.issues[id].editions[l], b.outbox[PublishKey(id, l, v)];
    LiveIssueCompleted(b.issues, id, l, Grant(id, l, v));
    PublicationSettles(b.outbox, id, l, v, edition);
  }

  predicate Completed(before: map<Id, Issue>, after: map<Id, Issue>, id: Id, l: Locale)
    requires id in before
  {
    && after.Keys == before.Keys
    && SameWork(before[id], after[id])
    && (l in after[id].editions ==> after[id].editions[l].retiringAsset.None?)
    && (forall k | k in after[id].editions && k in before[id].editions && k != l :: after[id].editions[k] == before[id].editions[k])
    && (forall i | i in before && i != id :: after[i] == before[i])
  }

  predicate Settles(before: map<EventKey, Event>, after: map<EventKey, Event>, key: EventKey)
    requires key in before
  {
    && key in after && after[key] == before[key].(status := Delivered)
    && (forall k | k in after && k.PublishKey? :: k in before)
    && (forall k | k in before && k.PublishKey? && k != key :: k in after && after[k] == before[k])
  }

  lemma LiveIssueCompleted(issues: map<Id, Issue>, id: Id, l: Locale, grant: Grant)
    requires id in issues && l in issues[id].editions
    ensures var live := Settled(issues[id], l, PublishedEdition(issues[id].editions[l], grant), Published);
      && Completed(issues, issues[id := live], id, l)
      && Completed(issues, issues[id := live.(notice := NoticePending)], id, l)
  {
    hide SameWork;
    PublishedSame(issues[id], l, grant);
  }

  lemma PublishedSame(issue: Issue, l: Locale, grant: Grant)
    requires l in issue.editions
    ensures var live := Settled(issue, l, PublishedEdition(issue.editions[l], grant), Published);
      SameWork(issue, live) && SameWork(issue, live.(notice := NoticePending))
  {
  }

  lemma PublicationSettles(outbox: map<EventKey, Event>, id: Id, l: Locale, v: Version, edition: Edition)
    requires PublishKey(id, l, v) in outbox
    ensures var key := PublishKey(id, l, v);
      var after := RetireFile(Deliver(outbox, key), id, l, edition, outbox[key].asset);
      Settles(outbox, after, key) && Settles(outbox, RequestNotice(after, id), key)
  {
    hide RetireFile, RequestNotice;
    var key := PublishKey(id, l, v);
    var delivered := Deliver(outbox, key);
    RetiringAdds(delivered, id, l, edition, outbox[key].asset);
    RequestAdds(RetireFile(delivered, id, l, edition, outbox[key].asset), id);
  }

  lemma CompletionShows(b: Tables, id: Id, l: Locale, v: Version)
    requires Inv(b) && Shown(b) && CompletePublish(b, id, l, v).Ok? && !b.outbox[PublishKey(id, l, v)].status.Delivered?
    requires Inv(CompletePublish(b, id, l, v).value)
    ensures Shown(CompletePublish(b, id, l, v).value)
  {
    hide Inv, CompletePublish, RowShown, EventShown, IssueShown, SameWork, Settles;
    var after := CompletePublish(b, id, l, v).value;
    CompletionIs(b, id, l, v);
    OneIssueDescribed(b, after, id);
    NewRowShown(b, id, l, v);
    RowsAfterCompletion(b, id, l, v);
    EventsAfterCompletion(b, id, l, v);
  }

  lemma NewRowShown(b: Tables, id: Id, l: Locale, v: Version)
    requires Inv(b) && Shown(b) && CompletePublish(b, id, l, v).Ok? && !b.outbox[PublishKey(id, l, v)].status.Delivered?
    ensures var after := CompletePublish(b, id, l, v).value;
      id in b.issues && (l, b.issues[id].date) in after.rows && RowShown(after, l, after.rows[(l, b.issues[id].date)])
  {
    hide Inv, CompletePublish, RowShown, IssueInv, FlightInv, NoticeInv, PublishedRows;
    var after := CompletePublish(b, id, l, v).value;
    CompletionIs(b, id, l, v);
    FlightIsUnique(b, id, l);
    assert EventShown(b, PublishKey(id, l, v));
    assert IssueShown(b.issues[id]);
    hide Shown;
    var w :| IsLast(b.issues[id].revisions, w, v) && Describes(b.issues[id].revisions[w], b.issues[id]);
    RowReads(b.issues[id], after, id, l, v, w);
  }

  lemma RowReads(issue: Issue, after: Tables, id: Id, l: Locale, v: Version, w: Version)
    requires id in after.issues && SameWork(issue, after.issues[id]) && l in issue.editions
    requires l in after.issues[id].editions ==> after.issues[id].editions[l].retiringAsset.None?
    requires IsLast(issue.revisions, w, v) && Describes(issue.revisions[w], issue)
    requires PublishKey(id, l, v) in after.outbox && !LiveEvent(after.outbox[PublishKey(id, l, v)])
    requires after.outbox[PublishKey(id, l, v)].asset == issue.editions[l].asset
    ensures RowShown(after, l, Projection(id, v, Public(issue.number, issue.date, issue.editions[l].text, issue.editions[l].asset)))
  {
    var payload := Public(issue.number, issue.date, issue.editions[l].text, issue.editions[l].asset);
    assert IsLast(after.issues[id].revisions, w, v) && Records(after.issues[id].revisions[w], l, payload);
  }

  lemma RowsAfterCompletion(b: Tables, id: Id, l: Locale, v: Version)
    requires Inv(b) && Shown(b) && CompletePublish(b, id, l, v).Ok? && !b.outbox[PublishKey(id, l, v)].status.Delivered?
    requires id in b.issues
    ensures forall k | k in b.rows && k != (l, b.issues[id].date) :: RowShown(CompletePublish(b, id, l, v).value, k.0, b.rows[k])
  {
    hide Inv, CompletePublish, RowShown, EventShown, IssueShown, SameWork, Settles, Completed;
    CompletionIs(b, id, l, v);
    forall k | k in b.rows && k != (l, b.issues[id].date) ensures RowShown(CompletePublish(b, id, l, v).value, k.0, b.rows[k]) {
      RowAt(b, k);
      OldRowShown(b, CompletePublish(b, id, l, v).value, id, l, v, k);
    }
  }

  lemma OldRowShown(b: Tables, after: Tables, id: Id, l: Locale, v: Version, k: (Locale, Date))
    requires id in b.issues && PublishKey(id, l, v) in b.outbox
    requires Completed(b.issues, after.issues, id, l) && Settles(b.outbox, after.outbox, PublishKey(id, l, v))
    requires k in b.rows && RowInv(b.issues, k.0, k.1, b.rows[k]) && RowShown(b, k.0, b.rows[k]) && k != (l, b.issues[id].date)
    ensures RowShown(after, k.0, b.rows[k])
  {
    hide Records;
    var row := b.rows[k];
    assert row.issue == id ==> k.0 != l;
    var w :| IsLast(b.issues[row.issue].revisions, w, row.version) && Records(b.issues[row.issue].revisions[w], k.0, row.payload);
    assert IsLast(after.issues[row.issue].revisions, w, row.version);
  }

  lemma EventsAfterCompletion(b: Tables, id: Id, l: Locale, v: Version)
    requires Shown(b) && CompletePublish(b, id, l, v).Ok? && !b.outbox[PublishKey(id, l, v)].status.Delivered?
    ensures var after := CompletePublish(b, id, l, v).value;
      forall k | k in after.outbox :: EventShown(after, k)
  {
    hide CompletePublish, RowShown, IssueShown;
    CompletionIs(b, id, l, v);
    var after := CompletePublish(b, id, l, v).value;
    forall k | k in after.outbox ensures EventShown(after, k) {
      if k.PublishKey? { assert EventShown(b, k); }
    }
  }

  // ---------------------------------------------------------------- every reachable state

  lemma NextShows(b: Tables, step: Step)
    requires Inv(b) && Shown(b)
    ensures Shown(Next(b, step))
  {
    NextKeeps(b, step);
    hide Inv, Shown, CreateIssue, UpdateIssue, PutVersion, UpdateVersion, DeleteVersion, RestoreIssueRevision, DeleteIssue;
    hide StartPublish, Unpublish, Claim, Release, CompletePublish, CompleteUnpublish, CompleteNotification, Fail, FailPublish;
    match step {
      case Publish(id, l, expected, notify) =>
        if StartPublish(b, id, l, expected, notify).Ok? { StartShows(b, id, l, expected, notify); }
      case FinishPublish(id, l, v) =>
        DoneAlready(b, id, l, v);
        if CompletePublish(b, id, l, v).Ok? && !b.outbox[PublishKey(id, l, v)].status.Delivered? { CompletionShows(b, id, l, v); }
      case EditMetadata(_, _, _, _) => EditsShow(b, step);
      case Put(_, _, _, _) => EditsShow(b, step);
      case EditVersion(_, _, _, _) => EditsShow(b, step);
      case RemoveVersion(_, _, _) => EditsShow(b, step);
      case Restore(_, _, _) => EditsShow(b, step);
      case _ =>
        OtherStepsUnseen(b, step);
        UnseenShows(b, Next(b, step));
    }
  }

  lemma OtherStepsUnseen(b: Tables, step: Step)
    requires Inv(b)
    requires !(step.Publish? || step.FinishPublish? || step.EditMetadata? || step.Put? || step.EditVersion? || step.RemoveVersion? || step.Restore?)
    ensures Unseen(b, Next(b, step))
  {
    hide Inv, Unseen, CreateIssue, DeleteIssue, Write;
    hide Unpublish, Claim, Release, CompleteUnpublish, CompleteNotification, Fail, FailPublish;
    NothingUnseen(b);
    match step {
      case Create(id, number, date) => if CreateIssue(b, id, number, date).Ok? { CreationUnseen(b, id, number, date); }
      case Remove(id, expected) => if DeleteIssue(b, id, expected).Ok? { RemovalUnseen(b, id, expected); }
      case Withdraw(id, l, expected) => if Unpublish(b, id, l, expected).Ok? { WithdrawalUnseen(b, id, l, expected); }
      case ClaimEvent(key) => LeaseUnseen(b, key, false);
      case ReleaseEvent(key, defers) => LeaseUnseen(b, key, defers);
      case FinishWithdraw(id, l, v) => if CompleteUnpublish(b, id, l, v).Ok? { WithdrawnUnseen(b, id, l, v); }
      case FinishNotice(id) => NotificationUnseen(b, id);
      case FinishCleanup(key) =>
        if key in b.outbox && (key.RetireKey? || key.RevokeKey?) { WriteUnseen(b, key, Delivered, b.outbox[key].attempts); }
      case FailEvent(key) => FailureUnseen(b, key);
      case FailAndRevoke(id, l, v) => CompensationUnseen(b, id, l, v);
    }
  }

  lemma DoneAlready(b: Tables, id: Id, l: Locale, v: Version)
    ensures CompletePublish(b, id, l, v).Ok? ==> PublishKey(id, l, v) in b.outbox
    ensures CompletePublish(b, id, l, v).Ok? && b.outbox[PublishKey(id, l, v)].status.Delivered? ==> CompletePublish(b, id, l, v).value == b
  {
  }

  lemma {:induction false} RunShows(b: Tables, steps: seq<Step>)
    requires Inv(b) && Shown(b)
    ensures Shown(Run(b, steps))
    decreases steps
  {
    hide Inv, Shown, Next;
    if steps != [] {
      NextKeeps(b, steps[0]);
      NextShows(b, steps[0]);
      RunShows(Next(b, steps[0]), steps[1..]);
    }
  }

  lemma ReachableShows(b: Tables)
    requires Reachable(b)
    ensures Inv(b) && Shown(b)
  {
    ReachableHolds(b);
    hide Inv, Shown, Initial, Run;
    var start, steps :| Initial(start) && b == Run(start, steps);
    InitialShows(start);
    RunShows(start, steps);
  }

  lemma InitialShows(start: Tables)
    requires Initial(start)
    ensures Inv(start) && Shown(start)
  {
    assert Inv(start) by { hide Shown; }
    hide Inv;
  }

  /** In every reachable state each public row shows the issue as the last revision before its
      publication recorded it, with the file that publication was for; and as long as the
      edition counts as published it still reads like that. */
  lemma RowsShowRevision(b: Tables, l: Locale, d: Date)
    requires Reachable(b) && (l, d) in b.rows
    ensures var row := b.rows[(l, d)];
      && row.issue in b.issues && l in b.issues[row.issue].editions
      && (exists v :: IsLast(b.issues[row.issue].revisions, v, row.version) && Records(b.issues[row.issue].revisions[v], l, row.payload))
      && IsOf(b.outbox, PublishKey(row.issue, l, row.version), row.payload)
      && (b.issues[row.issue].editions[l].status.Published? ==> Reads(b.issues[row.issue].editions[l], row.payload))
  {
    hide Reachable, IssueInv, FlightInv, NoticeInv, PublishedRows, EventInv, UniqueInv, LatestInv, EventShown, IsLast, Records, Reads;
    ReachableShows(b);
    RowAt(b, (l, d));
    assert RowShown(b, l, b.rows[(l, d)]);
  }

  /** The latest bulletin of an edition is shown with its text and its file. */
  lemma LatestShowsEdition(b: Tables, l: Locale)
    requires Reachable(b) && l in b.latest
    ensures var row := b.latest[l].row;
      && row.issue in b.issues && l in b.issues[row.issue].editions
      && (exists v :: IsLast(b.issues[row.issue].revisions, v, row.version) && Records(b.issues[row.issue].revisions[v], l, row.payload))
      && (b.issues[row.issue].editions[l].status.Published? ==> Reads(b.issues[row.issue].editions[l], row.payload))
  {
    hide Reachable, IsLast, Records, Reads;
    LatestIsMaximum(b, l);
    var key :| key in b.rows && key.0 == l && b.rows[key] == b.latest[l].row;
    RowsShowRevision(b, l, key.1);
  }

  /** Every published edition is on show, under its date, as it reads. */
  lemma PublishedEditionIsShown(b: Tables, id: Id, l: Locale)
    requires Reachable(b) && id in b.issues && l in b.issues[id].editions && b.issues[id].editions[l].status.Published?
    ensures var issue := b.issues[id];
      && (l, issue.date) in b.rows
      && b.rows[(l, issue.date)].issue == id
      && b.rows[(l, issue.date)].payload == Public(issue.number, issue.date, issue.editions[l].text, issue.editions[l].asset)
  {
    hide Reachable, Inv, Shown, IsLast, Records;
    RowsAreBacked(b, l, b.issues[id].date);
    RowsShowRevision(b, l, b.issues[id].date);
  }
}
