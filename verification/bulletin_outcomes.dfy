/** What editing, publishing, failing and withdrawing a bulletin come to: the text and the file
    a reader gets, what can be done after a failure, and which file is deleted. */
module BulletinOutcomes {
  import opened ContentModel
  import opened Bulletins
  import opened BulletinInvariants
  import opened BulletinGuarantees
  import opened PublicBulletins

  // ---------------------------------------------------------------- what a publication shows

  /** An edition as readers get it. */
  function Reading(issue: Issue, l: Locale): Public
    requires l in issue.editions
  {
    Public(issue.number, issue.date, issue.editions[l].text, issue.editions[l].asset)
  }

  /** Completing the live event of a publication shows the edition, and changes no other row. */
  lemma CompletionShowsEdition(b: Tables, id: Id, l: Locale, v: Version)
    requires Reachable(b) && LiveAt(b.outbox, PublishKey(id, l, v))
    ensures id in b.issues && l in b.issues[id].editions && CompletePublish(b, id, l, v).Ok?
    ensures CompletePublish(b, id, l, v).value.rows == b.rows[(l, b.issues[id].date) := Projection(id, v, Reading(b.issues[id], l))]
  {
    hide Reachable, Inv, Shown, CompletePublish;
    ReachableShows(b);
    CompletionIsNeverStale(b, id, l, v);
    CompletesTo(b, id, l, v);
  }

  lemma CompletesTo(b: Tables, id: Id, l: Locale, v: Version)
    requires Inv(b) && Shown(b) && LiveAt(b.outbox, PublishKey(id, l, v)) && CompletePublish(b, id, l, v).Ok?
    ensures id in b.issues && l in b.issues[id].editions
    ensures CompletePublish(b, id, l, v).value.rows == b.rows[(l, b.issues[id].date) := Projection(id, v, Reading(b.issues[id], l))]
  {
    hide Inv, CompletePublish, RowShown, IssueShown, Completed, Settles;
    CompletionIs(b, id, l, v);
    assert EventShown(b, PublishKey(id, l, v));
  }

  /** From any state: an idle edition is published as it reads. */
  ghost predicate PublishesAs(b: Tables, id: Id, l: Locale, notify: bool, payload: Public) {
    && id in b.issues
    && var v := b.issues[id].version;
       var started := StartPublish(b, id, l, v, notify);
       && started.Ok?
       && var done := CompletePublish(started.value, id, l, v + 1);
          && done.Ok?
          && done.value.rows == b.rows[(l, payload.date) := Projection(id, v + 1, payload)]
  }

  lemma IdleEditionPublishes(b: Tables, id: Id, l: Locale, notify: bool)
    requires Inv(b) && Shown(b) && id in b.issues && l in b.issues[id].editions && !Busy(b.issues[id].status)
    ensures PublishesAs(b, id, l, notify, Reading(b.issues[id], l))
  {
    hide Inv, Shown, StartPublish, CompletePublish;
    var v := b.issues[id].version;
    IdleStarts(b, id, l, notify);
    var started := StartPublish(b, id, l, v, notify).value;
    StartPublishKeeps(b, id, l, v, notify);
    StartShows(b, id, l, v, notify);
    StartedCompletes(started, id, l, v + 1);
    CompletesTo(started, id, l, v + 1);
  }

  lemma IdleStarts(b: Tables, id: Id, l: Locale, notify: bool)
    requires Inv(b) && id in b.issues && l in b.issues[id].editions && !Busy(b.issues[id].status)
    ensures var v := b.issues[id].version;
      var started := StartPublish(b, id, l, v, notify);
      && started.Ok? && started.value.rows == b.rows
      && LiveAt(started.value.outbox, PublishKey(id, l, v + 1))
      && id in started.value.issues && l in started.value.issues[id].editions
      && Reading(started.value.issues[id], l) == Reading(b.issues[id], l) && started.value.issues[id].date == b.issues[id].date
      && started.value.issues[id].version == v + 1 && started.value.issues[id].status.Publishing?
      && started.value.issues[id].editions[l].status.Publishing?
  {
    hide FlightInv, NoticeInv, PublishedRows, LatestInv, RowInv, UniqueInv;
    var key := PublishKey(id, l, b.issues[id].version + 1);
    HoldsAt(b, id);
    if key in b.outbox { EventAt(b, key); }
  }

  lemma StartedCompletes(b: Tables, id: Id, l: Locale, v: Version)
    requires Inv(b) && LiveAt(b.outbox, PublishKey(id, l, v))
    ensures CompletePublish(b, id, l, v).Ok?
  {
    hide Inv, RequestNotice, RetireFile, Advance;
    LiveIsInFlight(b, PublishKey(id, l, v));
  }

  /** An upload is what the next publication of the edition shows. */
  lemma UploadIsShown(b: Tables, id: Id, l: Locale, expected: Version, upload: Upload, notify: bool)
    requires Reachable(b) && PutVersion(b, id, l, expected, upload).Ok?
    ensures id in b.issues
    ensures PublishesAs(PutVersion(b, id, l, expected, upload).value, id, l, notify,
                        Public(b.issues[id].number, b.issues[id].date, upload.text, upload.asset))
  {
    hide Reachable, Inv, Shown, PublishesAs;
    ReachableShows(b);
    var step := Put(id, l, expected, upload);
    NextKeeps(b, step);
    NextShows(b, step);
    UploadReads(b, id, l, expected, upload);
    IdleEditionPublishes(Next(b, step), id, l, notify);
  }

  lemma UploadReads(b: Tables, id: Id, l: Locale, expected: Version, upload: Upload)
    requires PutVersion(b, id, l, expected, upload).Ok?
    ensures var after := PutVersion(b, id, l, expected, upload).value;
      && id in b.issues && id in after.issues && l in after.issues[id].editions && !Busy(after.issues[id].status)
      && Reading(after.issues[id], l) == Public(b.issues[id].number, b.issues[id].date, upload.text, upload.asset)
      && after.rows == b.rows
  {
  }

  /** A corrected text is shown with the edition's file. */
  lemma TextIsShown(b: Tables, id: Id, l: Locale, expected: Version, text: string, notify: bool)
    requires Reachable(b) && UpdateVersion(b, id, l, expected, text).Ok?
    ensures id in b.issues && l in b.issues[id].editions
    ensures PublishesAs(UpdateVersion(b, id, l, expected, text).value, id, l, notify,
                        Public(b.issues[id].number, b.issues[id].date, text, b.issues[id].editions[l].asset))
  {
    hide Reachable, Inv, Shown, PublishesAs;
    ReachableShows(b);
    var step := EditVersion(id, l, expected, text);
    NextKeeps(b, step);
    NextShows(b, step);
    TextReads(b, id, l, expected, text);
    IdleEditionPublishes(Next(b, step), id, l, notify);
  }

  lemma TextReads(b: Tables, id: Id, l: Locale, expected: Version, text: string)
    requires UpdateVersion(b, id, l, expected, text).Ok?
    ensures var after := UpdateVersion(b, id, l, expected, text).value;
      && id in b.issues && l in b.issues[id].editions && id in after.issues && l in after.issues[id].editions && !Busy(after.issues[id].status)
      && Reading(after.issues[id], l) == Public(b.issues[id].number, b.issues[id].date, text, b.issues[id].editions[l].asset)
  {
  }

  // ---------------------------------------------------------------- restoring

  /** What is recorded stays so while the issue exists; a removed issue does not come back. */
  ghost predicate Remembers(b: Tables, after: Tables) {
    && b.used <= after.used
    && (forall id | id in after.issues && id !in b.issues :: id !in b.used)
    && (forall id | id in after.issues && id in b.issues ::
          forall v | v in b.issues[id].revisions :: v in after.issues[id].revisions && after.issues[id].revisions[v] == b.issues[id].revisions[v])
  }

  lemma EditRemembers(b: Tables, id: Id, issue: Issue)
    requires id in b.issues && Finish(b, id, issue).Ok? && issue.revisions == b.issues[id].revisions
    ensures Remembers(b, Finish(b, id, issue).value)
  {
  }

  lemma NextRemembers(b: Tables, step: Step)
    requires Inv(b)
    ensures Remembers(b, Next(b, step))
  {
    hide Inv, Remembers, StartPublish, CompletePublish;
    if step.EditMetadata? || step.Put? || step.EditVersion? || step.RemoveVersion? || step.Restore? { EditsRemember(b, step); }
    else {
      UsedGrows(b, step);
      StaysTheSame(b, step);
      hide Next;
      SameWorkRemembers(b, Next(b, step));
    }
  }

  lemma StaysTheSame(b: Tables, step: Step)
    requires Inv(b) && !(step.EditMetadata? || step.Put? || step.EditVersion? || step.RemoveVersion? || step.Restore?)
    ensures forall id | id in Next(b, step).issues && id in b.issues ::
      Next(b, step).issues[id] == b.issues[id] || SameWork(b.issues[id], Next(b, step).issues[id])
  {
    hide Inv, StartPublish, CompletePublish;
    match step {
      case Publish(id, l, expected, notify) =>
        if StartPublish(b, id, l, expected, notify).Ok? { StartCarries(b, id, l, expected, notify); }
      case FinishPublish(id, l, v) =>
        DoneAlready(b, id, l, v);
        if CompletePublish(b, id, l, v).Ok? && !b.outbox[PublishKey(id, l, v)].status.Delivered? { CompletionIs(b, id, l, v); }
      case _ => OtherStepsUnseen(b, step); hide Next;
    }
  }

  lemma UsedGrows(b: Tables, step: Step)
    requires Inv(b) && !(step.EditMetadata? || step.Put? || step.EditVersion? || step.RemoveVersion? || step.Restore?)
    ensures b.used <= Next(b, step).used
    ensures forall id | id in Next(b, step).issues && id !in b.issues :: id !in b.used
  {
    hide Inv, Taken, HasPublicState, HasIssueRow, Relatest, Advance, RequestNotice, RetireFile, WantsNotice, FallBack, Uploaded,
      RestoredEditions, SnapshotOf, Entered, Settled, Claim, Release;
    WritesOnly(b, step);
  }

  lemma WritesOnly(b: Tables, step: Step)
    ensures step.ClaimEvent? ==> Next(b, step).issues == b.issues && Next(b, step).used == b.used
    ensures step.ReleaseEvent? ==> Next(b, step).issues == b.issues && Next(b, step).used == b.used
  {
  }

  lemma SameWorkRemembers(b: Tables, after: Tables)
    requires b.used <= after.used && forall id | id in after.issues && id !in b.issues :: id !in b.used
    requires forall id | id in after.issues && id in b.issues :: after.issues[id] == b.issues[id] || SameWork(b.issues[id], after.issues[id])
    ensures Remembers(b, after)
  {
  }

  lemma EditsRemember(b: Tables, step: Step)
    requires step.EditMetadata? || step.Put? || step.EditVersion? || step.RemoveVersion? || step.Restore?
    ensures Remembers(b, Next(b, step))
  {
    hide Finish, LockIssue, Taken, HasIssueRow, Remembers, Uploaded, RestoredEditions;
    SameWorkRemembers(b, b);
    LockedIssue(b, step.id, step.expected);
    if step.id in b.issues {
      var id, issue := step.id, b.issues[step.id];
      match step {
        case EditMetadata(_, expected, number, date) =>
          if UpdateIssue(b, id, expected, number, date).Ok? { EditRemembers(b, id, issue.(number := Some(number), date := date)); }
        case Put(_, l, expected, upload) =>
          if PutVersion(b, id, l, expected, upload).Ok? {
            EditRemembers(b, id, issue.(status := Draft, editions := issue.editions[l := Uploaded(EditionAt(issue, l), upload)]));
          }
        case EditVersion(_, l, expected, text) =>
          if UpdateVersion(b, id, l, expected, text).Ok? {
            EditRemembers(b, id, issue.(status := Draft, editions := issue.editions[l := issue.editions[l].(text := text, status := Draft)]));
          }
        case RemoveVersion(_, l, expected) =>
          if DeleteVersion(b, id, l, expected).Ok? { EditRemembers(b, id, issue.(status := Draft, editions := issue.editions - {l})); }
        case Restore(_, revision, expected) =>
          if RestoreIssueRevision(b, id, revision, expected).Ok? {
            var snapshot := issue.revisions[revision];
            EditRemembers(b, id, issue.(number := snapshot.number, date := snapshot.date, status := Draft,
                                        editions := RestoredEditions(issue.editions, snapshot.uploads)));
          }
      }
    }
  }

  lemma {:induction false} RunRemembers(b: Tables, steps: seq<Step>)
    requires Inv(b)
    ensures Remembers(b, Run(b, steps))
    decreases steps
  {
    hide Inv, Next, Remembers;
    if steps == [] {
      SameWorkRemembers(b, b);
    } else {
      var next := Next(b, steps[0]);
      NextKeeps(b, steps[0]);
      NextRemembers(b, steps[0]);
      RunRemembers(next, steps[1..]);
      IssuesWereUsed(b);
      RemembersThrough(b, next, Run(next, steps[1..]));
    }
  }

  lemma IssuesWereUsed(b: Tables)
    requires Inv(b)
    ensures b.issues.Keys <= b.used
  {
  }

  lemma RemembersThrough(b: Tables, next: Tables, after: Tables)
    requires Remembers(b, next) && Remembers(next, after) && b.issues.Keys <= b.used
    ensures Remembers(b, after)
  {
  }

  /** A revision outlives every run: restored later, if the restore is accepted, it brings back
      number, date and editions, and each edition is then published with its text and file. */
  lemma RestoreRoundTrip(b: Tables, steps: seq<Step>, id: Id, revision: Version, expected: Version, l: Locale, notify: bool)
    requires Reachable(b) && id in b.issues && revision in b.issues[id].revisions
    requires RestoreIssueRevision(Run(b, steps), id, revision, expected).Ok?
    ensures var after := RestoreIssueRevision(Run(b, steps), id, revision, expected).value;
      var s := b.issues[id].revisions[revision];
      && id in after.issues && Describes(s, after.issues[id])
      && (l in s.uploads ==> PublishesAs(after, id, l, notify, Public(s.number, s.date, s.uploads[l].text, s.uploads[l].asset)))
  {
    hide Reachable, Inv, Shown, PublishesAs, Run, Remembers, RestoreIssueRevision;
    ReachableShows(b);
    RunKeeps(b, steps);
    RunShows(b, steps);
    RunRemembers(b, steps);
    var c, step := Run(b, steps), Restore(id, revision, expected);
    NextKeeps(c, step);
    NextShows(c, step);
    RestoreDescribes(c, id, revision, expected);
    RemembersRevision(b, c, id, revision);
    if l in b.issues[id].revisions[revision].uploads { IdleEditionPublishes(Next(c, step), id, l, notify); }
  }

  lemma RemembersRevision(b: Tables, after: Tables, id: Id, revision: Version)
    requires Remembers(b, after) && id in b.issues && id in after.issues && revision in b.issues[id].revisions
    ensures revision in after.issues[id].revisions && after.issues[id].revisions[revision] == b.issues[id].revisions[revision]
  {
  }

  lemma RestoreDescribes(b: Tables, id: Id, revision: Version, expected: Version)
    requires RestoreIssueRevision(b, id, revision, expected).Ok?
    ensures id in b.issues && revision in b.issues[id].revisions
    ensures var after := RestoreIssueRevision(b, id, revision, expected).value;
      && id in after.issues && !Busy(after.issues[id].status) && Describes(b.issues[id].revisions[revision], after.issues[id])
  {
    hide Taken, HasIssueRow;
  }

  /** And the revision stored with an edit is the issue as edited, in every reachable state. */
  lemma LastRevisionDescribes(b: Tables, id: Id)
    requires Reachable(b) && id in b.issues && b.issues[id].editions != map[]
    ensures exists v :: IsLast(b.issues[id].revisions, v, b.issues[id].version) && Describes(b.issues[id].revisions[v], b.issues[id])
  {
    hide Reachable, Inv, RowShown, EventShown, IsLast, Describes;
    ReachableShows(b);
    assert IssueShown(b.issues[id]);
  }

  // ---------------------------------------------------------------- failures

  /** A publication that fails leaves the public rows and the edition's work and grants alone,
      and can be started again at once. */
  lemma FailedPublicationRestarts(b: Tables, id: Id, l: Locale, v: Version, notify: bool)
    requires Reachable(b) && LiveAt(b.outbox, PublishKey(id, l, v))
    ensures var after := Fail(b, PublishKey(id, l, v));
      && id in b.issues && l in b.issues[id].editions && id in after.issues
      && after.rows == b.rows && after.latest == b.latest
      && after.issues[id] == b.issues[id].(status := Draft, editions := b.issues[id].editions[l := b.issues[id].editions[l].(status := Draft)])
      && CompletePublish(after, id, l, v) == Err(Stale)
      && PublishesAs(after, id, l, notify, Reading(b.issues[id], l))
  {
    hide Reachable, Inv, Shown, Fail, PublishesAs;
    ReachableShows(b);
    LiveIsInFlight(b, PublishKey(id, l, v));
    FailsInFlight(b, PublishKey(id, l, v));
    FailKeeps(b, PublishKey(id, l, v));
    FailureUnseen(b, PublishKey(id, l, v));
    var after := Fail(b, PublishKey(id, l, v));
    hide Unseen;
    UnseenShows(b, after);
    IdleEditionPublishes(after, id, l, notify);
  }

  /** A withdrawal that fails can be started again at once, and until then no upload replaces
      the edition. */
  lemma FailedWithdrawalRestarts(b: Tables, id: Id, l: Locale, v: Version, upload: Upload)
    requires Reachable(b) && LiveAt(b.outbox, UnpublishKey(id, l, v))
    ensures var after := Fail(b, UnpublishKey(id, l, v));
      && id in b.issues && l in b.issues[id].editions && id in after.issues
      && after.rows == b.rows && after.latest == b.latest
      && after.issues[id] == b.issues[id].(status := UnpublishFailed,
                                           editions := b.issues[id].editions[l := b.issues[id].editions[l].(status := UnpublishFailed)])
      && Unpublish(after, id, l, v).Ok?
      && PutVersion(after, id, l, v, upload) == Err(NotPublishable)
  {
    hide Reachable, Inv, Shown, Fail, Relatest, Finish;
    var key := UnpublishKey(id, l, v);
    ReachableShows(b);
    LiveIsInFlight(b, key);
    FailsInFlight(b, key);
    FailKeeps(b, key);
    LeavingHolds(b, id, l);
    NotQueuedAhead(Fail(b, key), UnpublishKey(id, l, v + 1));
  }

  lemma LeavingHolds(b: Tables, id: Id, l: Locale)
    requires Shown(b) && id in b.issues && l in b.issues[id].editions && Leaving(b.issues[id].editions[l])
    ensures b.issues[id].editions[l].grant.Some?
  {
    assert IssueShown(b.issues[id]);
  }

  lemma NotQueuedAhead(b: Tables, key: EventKey)
    requires Inv(b) && (key.PublishKey? || key.UnpublishKey?) && key.issue in b.issues && b.issues[key.issue].version < key.version
    ensures key !in b.outbox
  {
    if key in b.outbox { EventAt(b, key); }
  }

  // ---------------------------------------------------------------- the files behind the rows

  /** The file on show when a publication with another one completes is deleted exactly if the
      edition had started to retire it. */
  lemma DisplacedFileIsRetiredExactly(b: Tables, id: Id, l: Locale, v: Version)
    requires Reachable(b) && LiveAt(b.outbox, PublishKey(id, l, v))
    requires id in b.issues && (l, b.issues[id].date) in b.rows && b.rows[(l, b.issues[id].date)].issue == id
    ensures l in b.issues[id].editions && CompletePublish(b, id, l, v).Ok?
    ensures var after := CompletePublish(b, id, l, v).value;
      var edition := b.issues[id].editions[l];
      var shown := b.rows[(l, b.issues[id].date)].payload.asset;
      var key := RetireKey(id, l, shown);
      && (key in after.outbox <==> key in b.outbox || (edition.retiringAsset.Some? && shown != edition.asset))
      && (key in after.outbox && key !in b.outbox ==> after.outbox[key] == Event(Waiting, 0, shown, edition.retiringGrant, false))
      && (forall k | k in after.outbox && k !in b.outbox :: k == key || k == NoticeKey(id))
  {
    hide Reachable, Inv, CompletePublish, EventShown, IssueShown, LastRecords;
    ReachableShows(b);
    CompletionIsNeverStale(b, id, l, v);
    PublishedIs(b, id, l, v);
    assert RowShown(b, l, b.rows[(l, b.issues[id].date)]);
    EventNamesFile(b, id, l, v);
    hide Shown, RowShown;
    var edition, event := b.issues[id].editions[l], b.outbox[PublishKey(id, l, v)];
    RetiresFile(b.outbox, id, l, v, edition, WantsNotice(b.issues[id], event));
  }

  lemma EventNamesFile(b: Tables, id: Id, l: Locale, v: Version)
    requires Shown(b) && LiveAt(b.outbox, PublishKey(id, l, v)) && id in b.issues && l in b.issues[id].editions
    ensures b.outbox[PublishKey(id, l, v)].asset == b.issues[id].editions[l].asset
  {
    assert EventShown(b, PublishKey(id, l, v));
  }

  lemma RetiresFile(outbox: map<EventKey, Event>, id: Id, l: Locale, v: Version, edition: Edition, asks: bool)
    requires PublishKey(id, l, v) in outbox && outbox[PublishKey(id, l, v)].asset == edition.asset
    ensures var retired := RetireFile(Deliver(outbox, PublishKey(id, l, v)), id, l, edition, outbox[PublishKey(id, l, v)].asset);
      var after := if asks then RequestNotice(retired, id) else retired;
      forall asset :: var key := RetireKey(id, l, asset);
        && (key in after <==> key in outbox || (edition.retiringAsset == Some(asset) && asset != edition.asset))
        && (key in after && key !in outbox ==> after[key] == Event(Waiting, 0, asset, edition.retiringGrant, false))
    ensures var retired := RetireFile(Deliver(outbox, PublishKey(id, l, v)), id, l, edition, outbox[PublishKey(id, l, v)].asset);
      var after := if asks then RequestNotice(retired, id) else retired;
      forall k | k in after && k !in outbox :: k == NoticeKey(id) || (edition.retiringAsset.Some? && k == RetireKey(id, l, edition.retiringAsset.value))
  {
  }

  /** A withdrawal takes the edition off the public rows and, if it was the latest, off that one,
      and queues the revocation of its grant. The event names the file on show exactly if the
      edition retires a file or still holds it. */
  lemma WithdrawalTakesDown(b: Tables, id: Id, l: Locale, expected: Version)
    requires Reachable(b) && Unpublish(b, id, l, expected).Ok?
    ensures id in b.issues && l in b.issues[id].editions
    ensures var after := Unpublish(b, id, l, expected).value;
      var d, edition, key := b.issues[id].date, b.issues[id].editions[l], UnpublishKey(id, l, expected + 1);
      && after.rows == b.rows - {(l, d)}
      && (l in after.latest ==> after.latest[l].row.issue != id)
      && LiveAt(after.outbox, key) && after.outbox[key].grant == edition.grant
      && ((l, d) in b.rows && b.rows[(l, d)].issue == id ==>
            (after.outbox[key].asset == b.rows[(l, d)].payload.asset <==>
               edition.retiringAsset.Some? || edition.asset == b.rows[(l, d)].payload.asset))
  {
    hide Reachable, Inv, Shown, Unpublish, Next;
    Withdraws(b, id, l, expected);
    ReachableShows(b);
    if (l, b.issues[id].date) in b.rows { RetiringIsShown(b, l, b.issues[id].date); }
    WithdrawnIsNotLatest(b, id, l, expected);
  }

  lemma WithdrawnIsNotLatest(b: Tables, id: Id, l: Locale, expected: Version)
    requires Reachable(b) && Unpublish(b, id, l, expected).Ok?
    ensures var after := Unpublish(b, id, l, expected).value;
      l in after.latest ==> after.latest[l].row.issue != id
  {
    hide Reachable, Inv, Unpublish, RowInv;
    var after := Unpublish(b, id, l, expected).value;
    Withdraws(b, id, l, expected);
    NextIsReachable(b, Withdraw(id, l, expected));
    LatestIsMaximum(after, l);
    if l in after.latest {
      var key :| key in after.rows && key.0 == l && after.rows[key] == after.latest[l].row;
      ReachableHolds(b);
      RowAt(b, key);
      if b.rows[key].issue == id { RowIsOf(b.issues, key, b.rows[key], id); }
    }
  }

  lemma RowIsOf(issues: map<Id, Issue>, key: (Locale, Date), row: Projection, id: Id)
    requires RowInv(issues, key.0, key.1, row) && row.issue == id
    ensures id in issues && key.1 == issues[id].date
  {
  }

  lemma Withdraws(b: Tables, id: Id, l: Locale, expected: Version)
    requires Unpublish(b, id, l, expected).Ok?
    ensures var after := Unpublish(b, id, l, expected).value;
      && id in b.issues && l in b.issues[id].editions
      && after.rows == b.rows - {(l, b.issues[id].date)}
      && LiveAt(after.outbox, UnpublishKey(id, l, expected + 1))
      && var edition, event := b.issues[id].editions[l], after.outbox[UnpublishKey(id, l, expected + 1)];
         event.grant == edition.grant && event.asset == (if edition.retiringAsset.Some? then edition.retiringAsset.value else edition.asset)
  {
    hide Relatest, LockIssue;
    LockedIssue(b, id, expected);
  }

  lemma RetiringIsShown(b: Tables, l: Locale, d: Date)
    requires Shown(b) && (l, d) in b.rows
    ensures var row := b.rows[(l, d)];
      row.issue in b.issues && l in b.issues[row.issue].editions && b.issues[row.issue].editions[l].retiringAsset.Some? ==>
        b.issues[row.issue].editions[l].retiringAsset.value == row.payload.asset
  {
    assert RowShown(b, l, b.rows[(l, d)]);
  }

  /** The edition has no file to retire, and none of its files was put up for deletion since. */
  ghost predicate NothingRetires(b: Tables, id: Id, l: Locale, v: Version, outbox: map<EventKey, Event>) {
    && Inv(b) && id in b.issues && b.issues[id].version == v
    && l in b.issues[id].editions && b.issues[id].editions[l].retiringAsset.None?
    && (forall asset :: RetireKey(id, l, asset) in b.outbox <==> RetireKey(id, l, asset) in outbox)
  }

  lemma StartRetiresNothing(b: Tables, id: Id, l: Locale, v: Version, outbox: map<EventKey, Event>)
    requires NothingRetires(b, id, l, v, outbox) && !Busy(b.issues[id].status)
    ensures var after := Next(b, Publish(id, l, v, false));
      && NothingRetires(after, id, l, v + 1, outbox) && LiveAt(after.outbox, PublishKey(id, l, v + 1))
      && Reading(after.issues[id], l) == Reading(b.issues[id], l) && after.issues[id].date == b.issues[id].date
  {
    hide Inv;
    NextKeeps(b, Publish(id, l, v, false));
    IdleStarts(b, id, l, false);
  }

  lemma FailureRetiresNothing(b: Tables, id: Id, l: Locale, v: Version, outbox: map<EventKey, Event>)
    requires NothingRetires(b, id, l, v, outbox) && LiveAt(b.outbox, PublishKey(id, l, v))
    ensures var after := Next(b, FailEvent(PublishKey(id, l, v)));
      && NothingRetires(after, id, l, v, outbox) && !Busy(after.issues[id].status) && after.issues[id].editions[l].status.Draft?
      && after.issues[id].number == b.issues[id].number && after.issues[id].date == b.issues[id].date
  {
    hide Inv, Fail;
    NextKeeps(b, FailEvent(PublishKey(id, l, v)));
    LiveIsInFlight(b, PublishKey(id, l, v));
    FailsInFlight(b, PublishKey(id, l, v));
  }

  lemma UploadRetiresNothing(b: Tables, id: Id, l: Locale, v: Version, upload: Upload, outbox: map<EventKey, Event>)
    requires NothingRetires(b, id, l, v, outbox) && !Busy(b.issues[id].status) && b.issues[id].editions[l].status.Draft?
    ensures var after := Next(b, Put(id, l, v, upload));
      && NothingRetires(after, id, l, v + 1, outbox) && !Busy(after.issues[id].status) && after.issues[id].date == b.issues[id].date
      && Reading(after.issues[id], l) == Public(b.issues[id].number, b.issues[id].date, upload.text, upload.asset)
  {
    hide Inv, FlightInv, NoticeInv, PublishedRows;
    NextKeeps(b, Put(id, l, v, upload));
    HoldsAt(b, id);
  }

  lemma CompletionRetiresNothing(b: Tables, id: Id, l: Locale, v: Version, outbox: map<EventKey, Event>)
    requires NothingRetires(b, id, l, v, outbox) && Shown(b) && LiveAt(b.outbox, PublishKey(id, l, v))
    ensures var after := Next(b, FinishPublish(id, l, v));
      && (l, b.issues[id].date) in after.rows && after.rows[(l, b.issues[id].date)] == Projection(id, v, Reading(b.issues[id], l))
      && (forall asset :: RetireKey(id, l, asset) in after.outbox <==> RetireKey(id, l, asset) in outbox)
  {
    hide Inv, Shown, CompletePublish;
    StartedCompletes(b, id, l, v);
    CompletesTo(b, id, l, v);
    PublishedIs(b, id, l, v);
    EventNamesFile(b, id, l, v);
    RetiresFile(b.outbox, id, l, v, b.issues[id].editions[l], WantsNotice(b.issues[id], b.outbox[PublishKey(id, l, v)]));
  }

  /** An edition published as it is once more, the publication failing, and only then uploaded
      anew and published. */
  ghost function Reworked(b: Tables, id: Id, l: Locale, v: Version, upload: Upload): Tables {
    Run(b, [Publish(id, l, v, false), FailEvent(PublishKey(id, l, v + 1)), Put(id, l, v + 1, upload), Publish(id, l, v + 2, false),
            FinishPublish(id, l, v + 3)])
  }

  lemma RunsThrough(b: Tables, p: Step, q: Step, r: Step, s: Step, t: Step)
    ensures Run(b, [p, q, r, s, t]) == Next(Next(Next(Next(Next(b, p), q), r), s), t)
  {
    hide Next;
    var failed := Next(Next(b, p), q);
    assert [p, q, r, s, t][1..] == [q, r, s, t] && [q, r, s, t][1..] == [r, s, t];
    assert Run(b, [p, q, r, s, t]) == Run(failed, [r, s, t]);
    assert [r, s, t][1..] == [s, t] && [s, t][1..] == [t] && [t][1..] == [];
    assert Run(failed, [r, s, t]) == Run(Next(Next(failed, r), s), [t]);
  }

  /** Then the new file is on show and the one it replaces is not put up for deletion, from every
      state with a published edition. */
  lemma FailedRepublicationOrphansFile(b: Tables, id: Id, l: Locale, upload: Upload)
    requires Reachable(b) && id in b.issues && l in b.issues[id].editions
    requires b.issues[id].editions[l].status.Published? && !Busy(b.issues[id].status)
    ensures var v, d := b.issues[id].version, b.issues[id].date;
      var after := Reworked(b, id, l, v, upload);
      && (l, d) in b.rows && b.rows[(l, d)].payload == Reading(b.issues[id], l)
      && (l, d) in after.rows && after.rows[(l, d)] == Projection(id, v + 3, Public(b.issues[id].number, d, upload.text, upload.asset))
      && (forall asset :: RetireKey(id, l, asset) in after.outbox <==> RetireKey(id, l, asset) in b.outbox)
  {
    hide Reachable, Inv, Shown, Next, Run;
    var v := b.issues[id].version;
    ReachableShows(b);
    PublishedEditionIsShown(b, id, l);
    PublishedRetiresNothing(b, id, l);
    var p, q, r, s, t := Publish(id, l, v, false), FailEvent(PublishKey(id, l, v + 1)), Put(id, l, v + 1, upload),
      Publish(id, l, v + 2, false), FinishPublish(id, l, v + 3);
    RunsThrough(b, p, q, r, s, t);
    StartRetiresNothing(b, id, l, v, b.outbox);
    NextShows(b, p);
    var started := Next(b, p);
    FailureRetiresNothing(started, id, l, v + 1, b.outbox);
    NextShows(started, q);
    var failed := Next(started, q);
    UploadRetiresNothing(failed, id, l, v + 1, upload, b.outbox);
    NextShows(failed, r);
    var put := Next(failed, r);
    StartRetiresNothing(put, id, l, v + 2, b.outbox);
    NextShows(put, s);
    CompletionRetiresNothing(Next(put, s), id, l, v + 3, b.outbox);
  }

  lemma PublishedRetiresNothing(b: Tables, id: Id, l: Locale)
    requires Inv(b) && Shown(b) && id in b.issues && l in b.issues[id].editions && b.issues[id].editions[l].status.Published?
    ensures NothingRetires(b, id, l, b.issues[id].version, b.outbox)
  {
    assert IssueShown(b.issues[id]);
  }
}
