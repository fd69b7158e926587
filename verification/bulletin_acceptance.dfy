/** Exactly when the administrators' transactions on bulletins are accepted, in every reachable
    state, and what completing a publication or a withdrawal settles besides the rows. */
module BulletinAcceptance {
  import opened ContentModel
  import opened Bulletins
  import opened BulletinInvariants
  import opened BulletinGuarantees
  import opened PublicBulletins
  import opened BulletinOutcomes

  /** The issue is at the version the caller saw, and nothing of it is under way. */
  predicate Idle(b: Tables, id: Id, expected: Version) {
    id in b.issues && b.issues[id].version == expected && !Busy(b.issues[id].status)
  }

  /** No grant of the edition is recorded, neither a live one nor one to retire. */
  predicate Ungranted(edition: Edition) {
    edition.grant.None? && edition.retiringGrant.None?
  }

  predicate NothingGranted(issue: Issue) {
    forall l | l in issue.editions :: Ungranted(issue.editions[l])
  }

  predicate Free(issues: map<Id, Issue>, id: Id, number: Option<nat>, date: Date) {
    forall other | other in issues && other != id ::
      issues[other].date != date && (number.Some? ==> issues[other].number != number)
  }

  // ---------------------------------------------------------------- what the invariants say

  /** An idle issue in plain terms: what is published or stuck on its way out holds a grant,
      what left holds none, and no other state occurs but a draft. */
  ghost predicate Sound(b: Tables, id: Id)
    requires id in b.issues
  {
    var issue := b.issues[id];
    && issue.editions.Keys <= EDITIONS
    && issue.version + 1 !in issue.revisions
    && (issue.status.Published? ==> exists l :: l in issue.editions && issue.editions[l].status.Published?)
    && (forall l | l in issue.editions ::
          && !Foreign(issue.editions[l].status)
          && !(Busy(issue.editions[l].status) && !Busy(issue.status))
          && (issue.editions[l].status.Published? || Leaving(issue.editions[l]) ==> issue.editions[l].grant.Some?)
          && (issue.editions[l].status.Unpublished? ==> issue.editions[l].grant.None?))
    && (forall key | key in b.rows && b.rows[key].issue == id :: key.0 in issue.editions && issue.editions[key.0].grant.Some?)
    && (forall l | l in b.latest :: (l, b.latest[l].row.payload.date) in b.rows && b.rows[(l, b.latest[l].row.payload.date)] == b.latest[l].row)
  }

  lemma ReachableIsSound(b: Tables, id: Id)
    requires Reachable(b) && id in b.issues
    ensures Sound(b, id)
  {
    hide Reachable, Inv, Shown, IssueInv, FlightInv, NoticeInv, PublishedRows, RowInv, LatestInv, IssueShown;
    ReachableShows(b);
    HoldsAt(b, id);
    ShownAt(b, id);
    TableInv(b);
    GrantsOfRows(b, id);
    hide IssueHolds;
    IssueIsSound(b, id);
  }

  lemma ShownAt(b: Tables, id: Id)
    requires Shown(b) && id in b.issues
    ensures IssueShown(b.issues[id])
  {
  }

  lemma GrantsOfRows(b: Tables, id: Id)
    requires Inv(b) && id in b.issues
    ensures forall key | key in b.rows && b.rows[key].issue == id :: key.0 in b.issues[id].editions && b.issues[id].editions[key.0].grant.Some?
  {
    hide Inv;
    forall key | key in b.rows && b.rows[key].issue == id
      ensures key.0 in b.issues[id].editions && b.issues[id].editions[key.0].grant.Some?
    {
      RowAt(b, key);
    }
  }

  lemma IssueIsSound(b: Tables, id: Id)
    requires id in b.issues && IssueHolds(b, id) && IssueShown(b.issues[id]) && LatestInv(b.rows, b.latest)
    requires forall key | key in b.rows && b.rows[key].issue == id :: key.0 in b.issues[id].editions && b.issues[id].editions[key.0].grant.Some?
    ensures Sound(b, id)
  {
  }

  // ---------------------------------------------------------------- editing

  lemma FreeIsNotTaken(issues: map<Id, Issue>, id: Id, number: Option<nat>, date: Date)
    ensures Free(issues, id, number, date) <==> !Taken(issues, id, number, date)
  {
  }

  /** Number and date can be changed exactly while no file of the issue is public or waits to be
      withdrawn, and no other issue has them. */
  lemma MetadataIsAcceptedExactly(b: Tables, id: Id, expected: Version, number: nat, date: Date)
    requires Reachable(b)
    ensures UpdateIssue(b, id, expected, number, date).Ok? <==>
      1 <= number && Idle(b, id, expected) && NothingGranted(b.issues[id]) && Free(b.issues, id, Some(number), date)
  {
    hide Reachable, Taken, Free;
    if id in b.issues {
      ReachableIsSound(b, id);
      FreeIsNotTaken(b.issues, id, Some(number), date);
    }
  }

  /** A file can be uploaded exactly if the edition is not stuck on its way out. */
  lemma UploadIsAcceptedExactly(b: Tables, id: Id, l: Locale, expected: Version, upload: Upload)
    requires Reachable(b)
    ensures PutVersion(b, id, l, expected, upload).Ok? <==>
      && l in {ZhHant, ZhHans, En} && Idle(b, id, expected)
      && !(l in b.issues[id].editions && b.issues[id].editions[l].status.UnpublishFailed?)
  {
    hide Reachable;
    if id in b.issues { ReachableIsSound(b, id); }
  }

  /** A text can be corrected, and an edition removed, exactly if no grant of it is recorded. */
  lemma EditionIsEditableExactly(b: Tables, id: Id, l: Locale, expected: Version, text: string)
    requires Reachable(b)
    ensures UpdateVersion(b, id, l, expected, text).Ok? <==>
      Idle(b, id, expected) && l in b.issues[id].editions && Ungranted(b.issues[id].editions[l])
    ensures DeleteVersion(b, id, l, expected).Ok? <==>
      Idle(b, id, expected) && l in b.issues[id].editions && Ungranted(b.issues[id].editions[l])
  {
    hide Reachable;
    if id in b.issues { ReachableIsSound(b, id); }
  }

  /** A revision can be restored exactly if it names editions of this kind only, every edition it
      lacks can go, and number and date are free and, while rows are public, the present ones. */
  lemma RestoreIsAcceptedExactly(b: Tables, id: Id, revision: Version, expected: Version)
    requires Reachable(b)
    ensures RestoreIssueRevision(b, id, revision, expected).Ok? <==>
      && Idle(b, id, expected) && revision in b.issues[id].revisions
      && var issue, s := b.issues[id], b.issues[id].revisions[revision];
      && s.uploads.Keys <= {ZhHant, ZhHans, En}
      && (forall l | l in issue.editions && l !in s.uploads :: Ungranted(issue.editions[l]))
      && ((forall key | key in b.rows :: b.rows[key].issue != id) || (issue.number == s.number && issue.date == s.date))
      && Free(b.issues, id, s.number, s.date)
  {
    hide Reachable, Taken, Free, RestoredEditions, SnapshotOf;
    if id in b.issues {
      ReachableIsSound(b, id);
      if revision in b.issues[id].revisions {
        FreeIsNotTaken(b.issues, id, b.issues[id].revisions[revision].number, b.issues[id].revisions[revision].date);
      }
    }
  }

  /** An issue can be removed exactly if no grant of it is recorded and its withdrawal is not stuck. */
  lemma RemovalIsAcceptedExactly(b: Tables, id: Id, expected: Version)
    requires Reachable(b)
    ensures DeleteIssue(b, id, expected).Ok? <==>
      Idle(b, id, expected) && !b.issues[id].status.UnpublishFailed? && NothingGranted(b.issues[id])
  {
    hide Reachable;
    if id in b.issues { ReachableIsSound(b, id); }
  }

  // ---------------------------------------------------------------- publishing and withdrawing

  /** Any edition of an idle issue can be published, and any that holds a grant withdrawn. */
  lemma StartsAreAcceptedExactly(b: Tables, id: Id, l: Locale, expected: Version, notify: bool)
    requires Reachable(b)
    ensures StartPublish(b, id, l, expected, notify).Ok? <==> Idle(b, id, expected) && l in b.issues[id].editions
    ensures Unpublish(b, id, l, expected).Ok? <==>
      Idle(b, id, expected) && l in b.issues[id].editions && b.issues[id].editions[l].grant.Some?
  {
    hide Reachable, Relatest, Inv, Shown;
    if id in b.issues {
      ReachableIsSound(b, id);
      ReachableShows(b);
      if b.issues[id].version == expected {
        NotQueuedAhead(b, PublishKey(id, l, expected + 1));
        NotQueuedAhead(b, UnpublishKey(id, l, expected + 1));
      }
    }
  }

  /** A completed withdrawal leaves the edition without grants and with nothing to retire, and
      the issue published exactly if another edition still is. */
  lemma WithdrawalSettles(b: Tables, id: Id, l: Locale, v: Version)
    requires Reachable(b) && LiveAt(b.outbox, UnpublishKey(id, l, v))
    ensures id in b.issues && l in b.issues[id].editions && CompleteUnpublish(b, id, l, v).Ok?
    ensures var after := CompleteUnpublish(b, id, l, v).value;
      && id in after.issues && l in after.issues[id].editions
      && var issue, edition := after.issues[id], after.issues[id].editions[l];
      && edition.status.Unpublished? && Ungranted(edition) && edition.retiringAsset.None?
      && edition.text == b.issues[id].editions[l].text && edition.asset == b.issues[id].editions[l].asset
      && (issue.status.Published? <==> exists k :: k in issue.editions && issue.editions[k].status.Published?)
      && (!issue.status.Published? ==> issue.status.Unpublished?)
      && after.rows == b.rows && after.latest == b.latest
  {
    hide Reachable, Inv;
    ReachableHolds(b);
    WithdrawalIsNeverStale(b, id, l, v);
    LiveIsInFlight(b, UnpublishKey(id, l, v));
  }

  /** Completing a publication asks for a notification exactly if the publication was started
      with that wish and none was sent or is on its way; its event then waits with a full budget
      of attempts. Otherwise notice and event stay as they are. */
  lemma NoticeIsRequestedExactly(b: Tables, id: Id, l: Locale, v: Version)
    requires Reachable(b) && LiveAt(b.outbox, PublishKey(id, l, v))
    ensures id in b.issues && CompletePublish(b, id, l, v).Ok?
    ensures var after := CompletePublish(b, id, l, v).value;
      var key, notice := NoticeKey(id), b.issues[id].notice;
      && id in after.issues
      && if b.outbox[PublishKey(id, l, v)].notify && (notice.NotRequested? || notice.NoticeFailed?) then
           && after.issues[id].notice.NoticePending?
           && key in after.outbox && after.outbox[key].status.Waiting? && after.outbox[key].attempts == 0
         else
           && after.issues[id].notice == notice
           && (key in after.outbox <==> key in b.outbox) && (key in b.outbox ==> after.outbox[key] == b.outbox[key])
  {
    hide Reachable, Inv, IssueInv, FlightInv, PublishedRows, CompletePublish, RetireFile, RequestNotice, Advance;
    ReachableHolds(b);
    CompletionIsNeverStale(b, id, l, v);
    PublishedIs(b, id, l, v);
    HoldsAt(b, id);
    var issue, event := b.issues[id], b.outbox[PublishKey(id, l, v)];
    var delivered := Deliver(b.outbox, PublishKey(id, l, v));
    RetiringAdds(delivered, id, l, issue.editions[l], event.asset);
    var retired := RetireFile(delivered, id, l, issue.editions[l], event.asset);
    assert NoticeKey(id) in retired <==> NoticeKey(id) in b.outbox;
    AskedNotice(retired, id);
  }

  lemma AskedNotice(outbox: map<EventKey, Event>, id: Id)
    ensures var after := RequestNotice(outbox, id);
      NoticeKey(id) in after
    ensures var after := RequestNotice(outbox, id);
      (NoticeKey(id) !in outbox || outbox[NoticeKey(id)].status.FailedEvent?) ==>
        after[NoticeKey(id)].status.Waiting? && after[NoticeKey(id)].attempts == 0
  {
  }

  // ---------------------------------------------------------------- grants and files in hand

  /** What a step makes of an edition's file and grant to retire, and of its grant: an upload
      over a published edition starts to retire both, a completed publication or withdrawal ends
      that and replaces or drops the grant, and nothing else touches them. */
  predicate HandsOver(e: Edition, f: Edition, grant: Grant) {
    if e.status.Published? && f.status.Draft? then
      f.retiringAsset == Some(e.asset) && f.retiringGrant == e.grant && f.grant == e.grant
    else if e.status.Publishing? && f.status.Published? then
      f.retiringAsset.None? && f.retiringGrant.None? && f.grant == Some(grant)
    else if e.status.Unpublishing? && f.status.Unpublished? then
      f.retiringAsset.None? && f.retiringGrant.None? && f.grant.None?
    else
      f.retiringAsset == e.retiringAsset && f.retiringGrant == e.retiringGrant && f.grant == e.grant
  }

  ghost predicate AllHandOver(b: Tables, after: Tables) {
    forall id, l | id in b.issues && id in after.issues && l in b.issues[id].editions && l in after.issues[id].editions ::
      HandsOver(b.issues[id].editions[l], after.issues[id].editions[l], Grant(id, l, b.issues[id].version))
  }

  lemma StepHandsOver(b: Tables, step: Step, id: Id, l: Locale)
    requires Reachable(b) && id in b.issues && l in b.issues[id].editions
    requires id in Next(b, step).issues && l in Next(b, step).issues[id].editions
    ensures HandsOver(b.issues[id].editions[l], Next(b, step).issues[id].editions[l], Grant(id, l, b.issues[id].version))
  {
    hide Reachable, Inv, Next, HandsOver;
    ReachableHolds(b);
    NextHandsOver(b, step);
  }

  lemma NextHandsOver(b: Tables, step: Step)
    requires Inv(b)
    ensures AllHandOver(b, Next(b, step))
  {
    hide Inv, AllHandOver, CreateIssue, UpdateIssue, PutVersion, UpdateVersion, DeleteVersion, RestoreIssueRevision, DeleteIssue;
    hide StartPublish, Unpublish, Claim, Release, CompletePublish, CompleteUnpublish, CompleteNotification, Fail, FailPublish;
    SameIssuesHandOver(b, b);
    match step {
      case Create(id, number, date) => CreationHandsOver(b, id, number, date);
      case EditMetadata(id, expected, number, date) => MetadataHandsOver(b, id, expected, number, date);
      case Put(id, l, expected, upload) => UploadHandsOver(b, id, l, expected, upload);
      case EditVersion(id, l, expected, text) => TextHandsOver(b, id, l, expected, text);
      case RemoveVersion(id, l, expected) => DropHandsOver(b, id, l, expected);
      case Restore(id, revision, expected) => RestoreHandsOver(b, id, revision, expected);
      case Remove(id, expected) => RemovalHandsOver(b, id, expected);
      case Publish(id, l, expected, notify) => StartHandsOver(b, id, l, expected, notify);
      case Withdraw(id, l, expected) => WithdrawalHandsOver(b, id, l, expected);
      case FinishPublish(id, l, v) => CompletionHandsOver(b, id, l, v);
      case FinishWithdraw(id, l, v) => WithdrawnHandsOver(b, id, l, v);
      case FinishNotice(id) => NoticeHandsOver(b, id);
      case ClaimEvent(key) => LeaseHandsOver(b, key, false);
      case ReleaseEvent(key, defers) => LeaseHandsOver(b, key, defers);
      case FinishCleanup(key) => if key in b.outbox { SameIssuesHandOver(b, Write(b, key, Delivered, b.outbox[key].attempts)); }
      case FailEvent(key) => FailureHandsOver(b, key);
      case FailAndRevoke(id, l, v) => FailureHandsOver(b, PublishKey(id, l, v)); CompensationKeepsIssues(b, id, l, v);
    }
  }

  lemma SameIssuesHandOver(b: Tables, after: Tables)
    requires after.issues == b.issues
    ensures AllHandOver(b, after)
  {
  }

  /** A step that changes one issue only. */
  lemma OneIssueHandsOver(b: Tables, after: Tables, id: Id)
    requires forall other | other in after.issues && other in b.issues && other != id :: after.issues[other] == b.issues[other]
    requires id in b.issues && id in after.issues ==> forall l | l in b.issues[id].editions && l in after.issues[id].editions ::
      HandsOver(b.issues[id].editions[l], after.issues[id].editions[l], Grant(id, l, b.issues[id].version))
    ensures AllHandOver(b, after)
  {
    forall other, l | other in b.issues && other in after.issues && l in b.issues[other].editions && l in after.issues[other].editions
      ensures HandsOver(b.issues[other].editions[l], after.issues[other].editions[l], Grant(other, l, b.issues[other].version))
    {}
  }

  lemma CreationHandsOver(b: Tables, id: Id, number: nat, date: Date)
    requires Inv(b)
    ensures AllHandOver(b, After(b, CreateIssue(b, id, number, date)))
  {
    hide Inv, Taken, AllHandOver;
    SameIssuesHandOver(b, b);
    TableInv(b);
    if CreateIssue(b, id, number, date).Ok? { OneIssueHandsOver(b, CreateIssue(b, id, number, date).value, id); }
  }

  lemma MetadataHandsOver(b: Tables, id: Id, expected: Version, number: nat, date: Date)
    ensures AllHandOver(b, After(b, UpdateIssue(b, id, expected, number, date)))
  {
    hide Taken, AllHandOver, SnapshotOf, LockIssue;
    LockedIssue(b, id, expected);
    OneIssueHandsOver(b, After(b, UpdateIssue(b, id, expected, number, date)), id);
  }

  lemma RemovalHandsOver(b: Tables, id: Id, expected: Version)
    ensures AllHandOver(b, After(b, DeleteIssue(b, id, expected)))
  {
    hide HasPublicState, AllHandOver;
    SameIssuesHandOver(b, b);
    OneIssueHandsOver(b, After(b, DeleteIssue(b, id, expected)), id);
  }

  lemma UploadHandsOver(b: Tables, id: Id, l: Locale, expected: Version, upload: Upload)
    ensures AllHandOver(b, After(b, PutVersion(b, id, l, expected, upload)))
  {
    hide AllHandOver, SnapshotOf, LockIssue;
    LockedIssue(b, id, expected);
    OneIssueHandsOver(b, After(b, PutVersion(b, id, l, expected, upload)), id);
  }

  lemma TextHandsOver(b: Tables, id: Id, l: Locale, expected: Version, text: string)
    ensures AllHandOver(b, After(b, UpdateVersion(b, id, l, expected, text)))
  {
    hide AllHandOver, SnapshotOf, LockIssue;
    LockedIssue(b, id, expected);
    OneIssueHandsOver(b, After(b, UpdateVersion(b, id, l, expected, text)), id);
  }

  lemma DropHandsOver(b: Tables, id: Id, l: Locale, expected: Version)
    ensures AllHandOver(b, After(b, DeleteVersion(b, id, l, expected)))
  {
    hide AllHandOver, SnapshotOf, LockIssue;
    LockedIssue(b, id, expected);
    OneIssueHandsOver(b, After(b, DeleteVersion(b, id, l, expected)), id);
  }

  lemma RestoreHandsOver(b: Tables, id: Id, revision: Version, expected: Version)
    ensures AllHandOver(b, After(b, RestoreIssueRevision(b, id, revision, expected)))
  {
    hide AllHandOver, SnapshotOf, Taken, HasIssueRow, LockIssue;
    LockedIssue(b, id, expected);
    OneIssueHandsOver(b, After(b, RestoreIssueRevision(b, id, revision, expected)), id);
  }

  lemma StartHandsOver(b: Tables, id: Id, l: Locale, expected: Version, notify: bool)
    ensures AllHandOver(b, After(b, StartPublish(b, id, l, expected, notify)))
  {
    hide AllHandOver, LockIssue;
    LockedIssue(b, id, expected);
    OneIssueHandsOver(b, After(b, StartPublish(b, id, l, expected, notify)), id);
  }

  lemma WithdrawalHandsOver(b: Tables, id: Id, l: Locale, expected: Version)
    ensures AllHandOver(b, After(b, Unpublish(b, id, l, expected)))
  {
    hide AllHandOver, Relatest, LockIssue;
    LockedIssue(b, id, expected);
    OneIssueHandsOver(b, After(b, Unpublish(b, id, l, expected)), id);
  }

  lemma CompletionHandsOver(b: Tables, id: Id, l: Locale, v: Version)
    ensures AllHandOver(b, After(b, CompletePublish(b, id, l, v)))
  {
    hide AllHandOver, CompletePublish, RetireFile, RequestNotice, WantsNotice;
    SameIssuesHandOver(b, b);
    DoneAlready(b, id, l, v);
    if CompletePublish(b, id, l, v).Ok? && !b.outbox[PublishKey(id, l, v)].status.Delivered? {
      PublishedIs(b, id, l, v);
      OneIssueHandsOver(b, CompletePublish(b, id, l, v).value, id);
    }
  }

  lemma WithdrawnHandsOver(b: Tables, id: Id, l: Locale, v: Version)
    ensures AllHandOver(b, After(b, CompleteUnpublish(b, id, l, v)))
  {
    hide AllHandOver, AnyPublished;
    OneIssueHandsOver(b, After(b, CompleteUnpublish(b, id, l, v)), id);
  }

  lemma NoticeHandsOver(b: Tables, id: Id)
    ensures AllHandOver(b, CompleteNotification(b, id))
  {
    hide AllHandOver;
    OneIssueHandsOver(b, CompleteNotification(b, id), id);
  }

  lemma LeaseHandsOver(b: Tables, key: EventKey, defers: bool)
    ensures AllHandOver(b, Claim(b, key)) && AllHandOver(b, Release(b, key, defers))
  {
    hide AllHandOver;
    SameIssuesHandOver(b, Claim(b, key));
    SameIssuesHandOver(b, Release(b, key, defers));
  }

  lemma FailureHandsOver(b: Tables, key: EventKey)
    ensures AllHandOver(b, Fail(b, key))
  {
    hide AllHandOver;
    OneIssueHandsOver(b, Fail(b, key), key.issue);
  }

  lemma CompensationKeepsIssues(b: Tables, id: Id, l: Locale, v: Version)
    requires AllHandOver(b, Fail(b, PublishKey(id, l, v)))
    ensures AllHandOver(b, FailPublish(b, id, l, v))
  {
    hide Fail;
  }
}
