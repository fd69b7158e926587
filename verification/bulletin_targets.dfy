/** Which file and which grant a bulletin event is about. */
module BulletinTargets {
  import opened ContentModel
  import opened Bulletins
  import opened BulletinInvariants
  import opened BulletinGuarantees
  import opened PublicBulletins

  /** A compensation revokes the grant its publication created, on the file that publication was
      for; a retirement deletes the file it is named after. */
  predicate IsAimed(outbox: map<EventKey, Event>, key: EventKey)
    requires key in outbox
  {
    match key
    case RevokeKey(id, l, v) =>
      && outbox[key].grant == Some(Grant(id, l, v))
      && PublishKey(id, l, v) in outbox && outbox[PublishKey(id, l, v)].asset == outbox[key].asset
    case RetireKey(id, l, asset) => outbox[key].asset == asset
    case _ => true
  }

  ghost predicate Aims(outbox: map<EventKey, Event>) {
    forall key | key in outbox :: IsAimed(outbox, key)
  }

  /** Events keep what they are about, and what is new is aimed. */
  ghost predicate Moves(before: map<EventKey, Event>, after: map<EventKey, Event>) {
    && (forall key | key in before :: key in after && after[key].asset == before[key].asset && after[key].grant == before[key].grant)
    && (forall key | key in after && key !in before :: IsAimed(after, key))
  }

  lemma MovesKeepAims(before: map<EventKey, Event>, after: map<EventKey, Event>)
    requires Aims(before) && Moves(before, after)
    ensures Aims(after)
  {
    forall key | key in after ensures IsAimed(after, key) {
      if key in before { assert IsAimed(before, key); }
    }
  }

  lemma StillMoves(outbox: map<EventKey, Event>)
    ensures Moves(outbox, outbox)
  {
  }

  lemma WriteMoves(outbox: map<EventKey, Event>, key: EventKey, status: EventStatus, attempts: nat)
    requires key in outbox
    ensures Moves(outbox, outbox[key := outbox[key].(status := status, attempts := attempts)])
  {
  }

  lemma LeaseMoves(b: Tables, key: EventKey, defers: bool)
    ensures Moves(b.outbox, Claim(b, key).outbox) && Moves(b.outbox, Release(b, key, defers).outbox)
  {
    hide Moves;
    StillMoves(b.outbox);
    if key in b.outbox {
      var attempts := b.outbox[key].attempts;
      WriteMoves(b.outbox, key, Processing, attempts + 1);
      WriteMoves(b.outbox, key, Waiting, if defers && 0 < attempts then attempts - 1 else attempts);
    }
  }

  lemma FailureMoves(b: Tables, key: EventKey)
    ensures Moves(b.outbox, Fail(b, key).outbox)
  {
    hide Moves, FallBack;
    StillMoves(b.outbox);
    if key in b.outbox { WriteMoves(b.outbox, key, FailedEvent, b.outbox[key].attempts); }
  }

  lemma CompensationMoves(b: Tables, id: Id, l: Locale, v: Version)
    ensures Moves(b.outbox, FailPublish(b, id, l, v).outbox)
  {
    hide Fail;
    FailureMoves(b, PublishKey(id, l, v));
  }

  lemma NotificationMoves(b: Tables, id: Id)
    ensures Moves(b.outbox, CompleteNotification(b, id).outbox)
  {
    hide Moves;
    StillMoves(b.outbox);
    if NoticeKey(id) in b.outbox { WriteMoves(b.outbox, NoticeKey(id), Delivered, b.outbox[NoticeKey(id)].attempts); }
  }

  lemma CompletionMoves(b: Tables, id: Id, l: Locale, v: Version)
    requires CompletePublish(b, id, l, v).Ok? && !b.outbox[PublishKey(id, l, v)].status.Delivered?
    ensures Moves(b.outbox, CompletePublish(b, id, l, v).value.outbox)
  {
    hide CompletePublish, Moves, RetireFile, RequestNotice, Deliver;
    PublishedIs(b, id, l, v);
    RetirementMoves(b.outbox, id, l, v, b.issues[id].editions[l]);
  }

  lemma RetirementMoves(outbox: map<EventKey, Event>, id: Id, l: Locale, v: Version, edition: Edition)
    requires PublishKey(id, l, v) in outbox
    ensures var after := RetireFile(Deliver(outbox, PublishKey(id, l, v)), id, l, edition, outbox[PublishKey(id, l, v)].asset);
      Moves(outbox, after) && Moves(outbox, RequestNotice(after, id))
  {
  }

  lemma WithdrawalMoves(b: Tables, id: Id, l: Locale, expected: Version)
    requires Unpublish(b, id, l, expected).Ok?
    ensures Moves(b.outbox, Unpublish(b, id, l, expected).value.outbox)
  {
    hide Relatest, LockIssue;
  }

  lemma StartMoves(b: Tables, id: Id, l: Locale, expected: Version, notify: bool)
    requires StartPublish(b, id, l, expected, notify).Ok?
    ensures Moves(b.outbox, StartPublish(b, id, l, expected, notify).value.outbox)
  {
    hide LockIssue;
  }

  lemma EditMoves(b: Tables, step: Step)
    requires step.Create? || step.EditMetadata? || step.Put? || step.EditVersion? || step.RemoveVersion? || step.Restore? || step.Remove?
    ensures Next(b, step).outbox == b.outbox
  {
    hide Taken, HasIssueRow, HasPublicState, Uploaded, RestoredEditions, SnapshotOf;
  }

  lemma NextMoves(b: Tables, step: Step)
    ensures Moves(b.outbox, Next(b, step).outbox)
  {
    hide Moves, CreateIssue, UpdateIssue, PutVersion, UpdateVersion, DeleteVersion, RestoreIssueRevision, DeleteIssue;
    hide StartPublish, Unpublish, Claim, Release, CompletePublish, CompleteUnpublish, CompleteNotification, Fail, FailPublish;
    StillMoves(b.outbox);
    match step {
      case Publish(id, l, expected, notify) => if StartPublish(b, id, l, expected, notify).Ok? { StartMoves(b, id, l, expected, notify); }
      case Withdraw(id, l, expected) => if Unpublish(b, id, l, expected).Ok? { WithdrawalMoves(b, id, l, expected); }
      case ClaimEvent(key) => LeaseMoves(b, key, false);
      case ReleaseEvent(key, defers) => LeaseMoves(b, key, defers);
      case FinishPublish(id, l, v) =>
        DoneAlready(b, id, l, v);
        if CompletePublish(b, id, l, v).Ok? && !b.outbox[PublishKey(id, l, v)].status.Delivered? { CompletionMoves(b, id, l, v); }
      case FinishWithdraw(id, l, v) => WithdrawnMoves(b, id, l, v);
      case FinishNotice(id) => NotificationMoves(b, id);
      case FinishCleanup(key) => if key in b.outbox { WriteMoves(b.outbox, key, Delivered, b.outbox[key].attempts); }
      case FailEvent(key) => FailureMoves(b, key);
      case FailAndRevoke(id, l, v) => CompensationMoves(b, id, l, v);
      case _ => EditMoves(b, step);
    }
  }

  lemma WithdrawnMoves(b: Tables, id: Id, l: Locale, v: Version)
    ensures CompleteUnpublish(b, id, l, v).Ok? ==> Moves(b.outbox, CompleteUnpublish(b, id, l, v).value.outbox)
  {
    hide Moves, AnyPublished;
    StillMoves(b.outbox);
    var key := UnpublishKey(id, l, v);
    if key in b.outbox { WriteMoves(b.outbox, key, Delivered, b.outbox[key].attempts); }
  }

  lemma {:induction false} RunAims(b: Tables, steps: seq<Step>)
    requires Aims(b.outbox)
    ensures Aims(Run(b, steps).outbox)
    decreases steps
  {
    hide Aims, Moves, Next;
    if steps != [] {
      NextMoves(b, steps[0]);
      MovesKeepAims(b.outbox, Next(b, steps[0]).outbox);
      RunAims(Next(b, steps[0]), steps[1..]);
    }
  }

  /** In every reachable state every compensation and retirement is about the grant and the file
      it should be about. */
  lemma CleanupsAreAimed(b: Tables, key: EventKey)
    requires Reachable(b) && key in b.outbox
    ensures IsAimed(b.outbox, key)
  {
    var start, steps :| Initial(start) && b == Run(start, steps);
    RunAims(start, steps);
  }
}
