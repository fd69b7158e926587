/** The publication worker against the bulletin outbox, the asset service and the grant service.

    As for Home and news, every remote call and every commit may succeed, be lost before it took
    effect, or take effect and still report an error, attempts may die between any two steps, and
    attempts on different events and administrators interleave freely. An event is not claimed
    again while an attempt on it is under way; that is what the lease is for. What a step does to
    the tables is one of the transactions of `bulletins.dfy`. */
module BulletinWorker {
  import opened ContentModel
  import opened Bulletins
  import opened BulletinInvariants
  import Transactions = BulletinGuarantees

  datatype Phase = Claimed | Granted | Confirming | Compensating | Revoked | Removed | Settling(verdict: Verdict)

  /** An attempt under way; `holds` once it obtained its grant. */
  datatype Attempt = Attempt(phase: Phase, holds: bool)

  /** The tables, the remote grants ever created and revoked, and the attempts under way. */
  datatype System = System(b: Tables, granted: set<Grant>, revoked: set<Grant>, attempts: map<EventKey, Attempt>)

  datatype Step =
    | Do(op: Transactions.Step)
    | ClaimNext(key: EventKey)
    | GetAsset(key: EventKey, reply: AssetReply)
    | Notify(key: EventKey, reply: AssetReply)
    | CreateGrant(key: EventKey, fault: Fault)
    | RevokeGrant(key: EventKey, fault: Fault)
    | DeleteAsset(key: EventKey, fault: Fault)
    | Complete(key: EventKey, fault: Fault)
    | Confirm(key: EventKey, answered: bool)
    | Compensate(key: EventKey, fault: Fault)
    | Settle(key: EventKey, fault: Fault)
    | Crash(key: EventKey)

  /** The transactions an administrator starts. */
  predicate Administrative(op: Transactions.Step) {
    || op.Create? || op.EditMetadata? || op.Put? || op.EditVersion? || op.RemoveVersion?
    || op.Restore? || op.Remove? || op.Publish? || op.Withdraw?
  }

  function GrantOf(key: EventKey): Grant
    requires key.PublishKey? || key.UnpublishKey? || key.RevokeKey?
  {
    Grant(key.issue, key.locale, key.version)
  }

  function KeyOf(g: Grant): EventKey {
    PublishKey(g.issue, g.locale, g.version)
  }

  predicate At(s: System, key: EventKey, phase: Phase) {
    key in s.attempts && s.attempts[key].phase == phase && key in s.b.outbox
  }

  function Move(s: System, key: EventKey, phase: Phase): System
    requires key in s.attempts
  {
    s.(attempts := s.attempts[key := s.attempts[key].(phase := phase)])
  }

  function End(s: System, key: EventKey): System {
    s.(attempts := s.attempts - {key})
  }

  function Ordinary(max: nat, b: Tables, key: EventKey): Verdict
    requires key in b.outbox
  {
    if b.outbox[key].attempts >= max then ToFail else ToRetry
  }

  function DoClaim(s: System, key: EventKey): System {
    if key in s.b.outbox && key !in s.attempts && LiveEvent(s.b.outbox[key]) then
      s.(b := Claim(s.b, key), attempts := s.attempts[key := Attempt(Claimed, false)])
    else s
  }

  /** publish up to the grant: an asset that is not usable settles the attempt. */
  function DoGetAsset(max: nat, s: System, key: EventKey, reply: AssetReply): System {
    if !At(s, key, Claimed) || !key.PublishKey? then s
    else match reply
      case Ready => s
      case Transient => Move(s, key, Settling(Ordinary(max, s.b, key)))
      case Terminal => Move(s, key, Settling(ToFail))
      case NotReady(overdue) => Move(s, key, Settling(if overdue then ToFail else ToDefer))
  }

  /** notifyBulletin up to the completion. The call is idempotent and leaves nothing to undo. */
  function DoNotify(max: nat, s: System, key: EventKey, reply: AssetReply): System {
    if !At(s, key, Claimed) || !key.NoticeKey? then s
    else match reply
      case Transient => Move(s, key, Settling(Ordinary(max, s.b, key)))
      case Terminal => Move(s, key, Settling(ToFail))
      case _ => s
  }

  /** A failed grant call is a compensation error, which is retried however often it happened. */
  function DoCreateGrant(s: System, key: EventKey, fault: Fault): System {
    if !At(s, key, Claimed) || !key.PublishKey? then s
    else match fault
      case Fine => s.(granted := s.granted + {GrantOf(key)}, attempts := s.attempts[key := Attempt(Granted, true)])
      case LostBefore => Move(s, key, Settling(ToRetry))
      case LostAfter => Move(s, key, Settling(ToRetry)).(granted := s.granted + {GrantOf(key)})
  }

  /** unpublish, retire and revokeGrant: revoke the event's grant. A retirement may carry none; the
      other two fail without one. */
  function DoRevokeGrant(s: System, key: EventKey, fault: Fault): System {
    if !At(s, key, Claimed) || key.PublishKey? || key.NoticeKey? then s
    else if s.b.outbox[key].grant.None? then (if key.RetireKey? then s else Move(s, key, Settling(ToFail)))
    else match fault
      case Fine => Move(s, key, Revoked).(revoked := s.revoked + {s.b.outbox[key].grant.value})
      case LostBefore => Move(s, key, Settling(ToRetry))
      case LostAfter => Move(s, key, Settling(ToRetry)).(revoked := s.revoked + {s.b.outbox[key].grant.value})
  }

  /** retire: then delete the asset. */
  function DoDeleteAsset(s: System, key: EventKey, fault: Fault): System {
    if !key.RetireKey? || !(At(s, key, Revoked) || (At(s, key, Claimed) && s.b.outbox[key].grant.None?)) then s
    else if fault.Fine? then Move(s, key, Removed)
    else Move(s, key, Settling(ToRetry))
  }

  /** All remote work is done and the handling can be completed. */
  predicate CanFinish(s: System, key: EventKey) {
    match key
    case PublishKey(_, _, _) => At(s, key, Granted)
    case RetireKey(_, _, _) => At(s, key, Removed)
    case NoticeKey(_) => At(s, key, Claimed)
    case _ => At(s, key, Revoked)
  }

  /** The transaction that ends the handling of an event. */
  function Finished(b: Tables, key: EventKey): Result<Tables>
    requires key in b.outbox
  {
    match key
    case PublishKey(id, l, v) => CompletePublish(b, id, l, v)
    case UnpublishKey(id, l, v) => CompleteUnpublish(b, id, l, v)
    case NoticeKey(id) => Ok(CompleteNotification(b, id))
    case _ => Ok(Write(b, key, Delivered, b.outbox[key].attempts))
  }

  function DoComplete(max: nat, s: System, key: EventKey, fault: Fault): System {
    if !CanFinish(s, key) then s
    else
      var committed := if fault.LostBefore? then Err(Conflict) else Finished(s.b, key);
      var after := if committed.Ok? then s.(b := committed.value) else s;
      if committed.Ok? && fault.Fine? then End(after, key)
      else if !key.PublishKey? then Move(after, key, Settling(Ordinary(max, s.b, key)))
      else if committed.Err? && committed.error.Stale? then Move(after, key, Compensating)
      else if s.b.outbox[key].attempts < max then Move(after, key, Settling(ToRetry))
      else Move(after, key, Confirming)
  }

  /** EventDelivered, asked before compensating. */
  function DoConfirm(s: System, key: EventKey, answered: bool): System {
    if !At(s, key, Confirming) then s
    else if !answered then Move(s, key, Settling(ToRetry))
    else if s.b.outbox[key].status.Delivered? then End(s, key)
    else Move(s, key, Compensating)
  }

  function DoCompensate(s: System, key: EventKey, fault: Fault): System {
    if !At(s, key, Compensating) || !key.PublishKey? then s
    else if fault.LostBefore? then Move(s, key, Settling(ToRetry))
    else
      var after := s.(b := FailPublish(s.b, key.issue, key.locale, key.version));
      if fault.Fine? then End(after, key) else Move(after, key, Settling(ToRetry))
  }

  function DoSettle(s: System, key: EventKey, fault: Fault): System {
    if key !in s.attempts || !s.attempts[key].phase.Settling? || key !in s.b.outbox then s
    else if fault.LostBefore? then End(s, key)
    else match s.attempts[key].phase.verdict
      case ToFail => End(s.(b := Fail(s.b, key)), key)
      case ToRetry => End(s.(b := Release(s.b, key, false)), key)
      case ToDefer => End(s.(b := Release(s.b, key, true)), key)
  }

  ghost function Next(max: nat, s: System, step: Step): System {
    match step
    case Do(op) => if Administrative(op) then s.(b := Transactions.Next(s.b, op)) else s
    case ClaimNext(key) => DoClaim(s, key)
    case GetAsset(key, reply) => DoGetAsset(max, s, key, reply)
    case Notify(key, reply) => DoNotify(max, s, key, reply)
    case CreateGrant(key, fault) => DoCreateGrant(s, key, fault)
    case RevokeGrant(key, fault) => DoRevokeGrant(s, key, fault)
    case DeleteAsset(key, fault) => DoDeleteAsset(s, key, fault)
    case Complete(key, fault) => DoComplete(max, s, key, fault)
    case Confirm(key, answered) => DoConfirm(s, key, answered)
    case Compensate(key, fault) => DoCompensate(s, key, fault)
    case Settle(key, fault) => DoSettle(s, key, fault)
    case Crash(key) => End(s, key)
  }

  ghost function Run(max: nat, s: System, steps: seq<Step>): System
    decreases steps
  {
    if steps == [] then s else Run(max, Next(max, s, steps[0]), steps[1..])
  }

  // ---------------------------------------------------------------- the invariant

  predicate DeliveredAt(outbox: map<EventKey, Event>, g: Grant) {
    KeyOf(g) in outbox && outbox[KeyOf(g)].status.Delivered?
  }

  predicate FailedAt(outbox: map<EventKey, Event>, g: Grant) {
    KeyOf(g) in outbox && outbox[KeyOf(g)].status.FailedEvent?
  }

  /** The grant recorded for an edition, and the one it is to retire. */
  function RecordedAt(b: Tables, id: Id, l: Locale): Option<Grant> {
    if id in b.issues && l in b.issues[id].editions then b.issues[id].editions[l].grant else None
  }

  function RetiringAt(b: Tables, id: Id, l: Locale): Option<Grant> {
    if id in b.issues && l in b.issues[id].editions then b.issues[id].editions[l].retiringGrant else None
  }

  predicate Records(b: Tables, g: Grant) {
    RecordedAt(b, g.issue, g.locale) == Some(g)
  }

  predicate RevokeQueued(outbox: map<EventKey, Event>, g: Grant) {
    RevokeKey(g.issue, g.locale, g.version) in outbox
  }

  predicate Retires(outbox: map<EventKey, Event>, asset: string, g: Grant) {
    var key := RetireKey(g.issue, g.locale, asset);
    key in outbox && outbox[key].grant == Some(g)
  }

  ghost predicate RetireQueued(outbox: map<EventKey, Event>, g: Grant) {
    exists asset :: Retires(outbox, asset, g)
  }

  /** A later publication of the edition was delivered. */
  ghost predicate Superseded(outbox: map<EventKey, Event>, g: Grant) {
    exists w: Version :: g.version < w && DeliveredAt(outbox, Grant(g.issue, g.locale, w))
  }

  /** What editions record was delivered for them; what they are to retire is what they record. */
  ghost predicate RecordInv(b: Tables) {
    && (forall id, l | RecordedAt(b, id, l).Some? ::
          var g := RecordedAt(b, id, l).value; g.issue == id && g.locale == l && DeliveredAt(b.outbox, g))
    && (forall id, l | RetiringAt(b, id, l).Some? :: RetiringAt(b, id, l) == RecordedAt(b, id, l))
  }

  /** Events that revoke: which grant, and that it is not shown any more or about to be hidden. */
  ghost predicate RevokerInv(b: Tables, granted: set<Grant>, revoked: set<Grant>, key: EventKey, event: Event) {
    match key
    case PublishKey(_, _, _) => event.grant.None?
    case NoticeKey(_) => event.grant.None?
    case RevokeKey(_, _, _) => event.grant == Some(GrantOf(key)) && FailedAt(b.outbox, GrantOf(key)) && GrantOf(key) in granted
    case RetireKey(id, l, _) =>
      event.grant.Some? ==>
        && event.grant.value.issue == id && event.grant.value.locale == l
        && DeliveredAt(b.outbox, event.grant.value) && !Records(b, event.grant.value)
    case UnpublishKey(id, l, _) =>
      && event.grant.Some? && event.grant.value.issue == id && event.grant.value.locale == l
      && DeliveredAt(b.outbox, event.grant.value)
      && (LiveEvent(event) ==> Records(b, event.grant.value))
  }

  ghost predicate LedgerInv(b: Tables, granted: set<Grant>, revoked: set<Grant>) {
    && (forall g | g in granted :: KeyOf(g) in b.outbox)
    && (forall g | DeliveredAt(b.outbox, g) :: g in granted)
    && (forall g | g in revoked :: g in granted && (DeliveredAt(b.outbox, g) || FailedAt(b.outbox, g)))
    && (forall key | key in b.outbox :: RevokerInv(b, granted, revoked, key, b.outbox[key]))
    && (forall key | key in b.outbox && !key.PublishKey? && !LiveEvent(b.outbox[key]) && b.outbox[key].grant.Some? ::
          b.outbox[key].grant.value in revoked)
  }

  /** A delivered grant is recorded, revoked, queued to be retired, or a later one took over. */
  ghost predicate AccountInv(b: Tables, revoked: set<Grant>) {
    forall g | DeliveredAt(b.outbox, g) ::
      Records(b, g) || g in revoked || RetireQueued(b.outbox, g) || Superseded(b.outbox, g)
  }

  /** What readers see is recorded and not revoked. */
  ghost predicate ShownInv(b: Tables, revoked: set<Grant>) {
    forall key | key in b.rows ::
      var g := Grant(b.rows[key].issue, key.0, b.rows[key].version); Records(b, g) && g !in revoked
  }

  ghost predicate PublishAttemptInv(g: Grant, a: Attempt, event: Event, granted: set<Grant>) {
    && !a.phase.Revoked? && !a.phase.Removed?
    && (a.phase.Claimed? ==> !a.holds)
    && (a.phase.Granted? || a.phase.Confirming? || a.phase.Compensating? ==> a.holds)
    && (a.holds ==> g in granted)
    && (a.holds && a.phase.Settling? ==> a.phase.verdict.ToRetry?)
    && (a.phase.Claimed? || a.phase.Granted? || a.phase.Compensating? ==> event.status.Processing?)
    && (a.phase.Confirming? ==> event.status.Processing? || event.status.Delivered?)
    && (a.phase.Settling? && !a.phase.verdict.ToRetry? ==> event.status.Processing?)
  }

  ghost predicate OtherAttemptInv(key: EventKey, a: Attempt, event: Event, revoked: set<Grant>) {
    && !a.holds && (a.phase.Claimed? || a.phase.Revoked? || a.phase.Removed? || a.phase.Settling?)
    && (a.phase.Claimed? || a.phase.Revoked? || a.phase.Removed? ==> event.status.Processing?)
    && (key.NoticeKey? ==> !a.phase.Revoked? && !a.phase.Removed?)
    && (a.phase.Settling? ==> !a.phase.verdict.ToDefer?)
    && (a.phase.Revoked? || a.phase.Removed? || (a.phase.Settling? && a.phase.verdict.ToFail?) ==>
          event.grant.Some? ==> event.grant.value in revoked)
  }

  ghost predicate AttemptInv(s: System, key: EventKey) {
    key in s.attempts ==>
      && key in s.b.outbox
      && (key.PublishKey? && s.attempts[key].holds && s.b.outbox[key].status.FailedEvent? ==> RevokeQueued(s.b.outbox, GrantOf(key)))
      && if key.PublishKey? then PublishAttemptInv(GrantOf(key), s.attempts[key], s.b.outbox[key], s.granted)
         else OtherAttemptInv(key, s.attempts[key], s.b.outbox[key], s.revoked)
  }

  ghost predicate SystemInv(s: System) {
    && Inv(s.b)
    && RecordInv(s.b)
    && LedgerInv(s.b, s.granted, s.revoked)
    && AccountInv(s.b, s.revoked)
    && ShownInv(s.b, s.revoked)
    && forall key | key in s.attempts :: AttemptInv(s, key)
  }

  ghost predicate Initial(s: System) {
    Transactions.Initial(s.b) && s.granted == {} && s.revoked == {} && s.attempts == map[]
  }

  lemma InitialHolds(s: System)
    requires Initial(s)
    ensures SystemInv(s)
  {
  }

  // ---------------------------------------------------------------- every step is a transaction

  /** The transaction a step performs, if it performs one. */
  function TransactionOf(s: System, step: Step): Option<Transactions.Step> {
    match step
    case Do(op) => if Administrative(op) then Some(op) else None
    case ClaimNext(key) => if key in s.b.outbox && key !in s.attempts then Some(Transactions.ClaimEvent(key)) else None
    case Complete(key, fault) => if CanFinish(s, key) && !fault.LostBefore? then Some(FinishOf(key)) else None
    case Compensate(key, fault) =>
      if At(s, key, Compensating) && key.PublishKey? && !fault.LostBefore?
      then Some(Transactions.FailAndRevoke(key.issue, key.locale, key.version)) else None
    case Settle(key, fault) =>
      if key !in s.attempts || !s.attempts[key].phase.Settling? || key !in s.b.outbox || fault.LostBefore? then None
      else (match s.attempts[key].phase.verdict
            case ToFail => Some(Transactions.FailEvent(key))
            case ToRetry => Some(Transactions.ReleaseEvent(key, false))
            case ToDefer => Some(Transactions.ReleaseEvent(key, true)))
    case _ => None
  }

  function FinishOf(key: EventKey): Transactions.Step {
    match key
    case PublishKey(id, l, v) => Transactions.FinishPublish(id, l, v)
    case UnpublishKey(id, l, v) => Transactions.FinishWithdraw(id, l, v)
    case NoticeKey(id) => Transactions.FinishNotice(id)
    case _ => Transactions.FinishCleanup(key)
  }

  lemma FinishIsTransaction(b: Tables, key: EventKey)
    requires key in b.outbox && (key.NoticeKey? ==> b.outbox[key].status.Processing?)
    ensures Transactions.Next(b, FinishOf(key)) == if Finished(b, key).Ok? then Finished(b, key).value else b
  {
  }

  lemma StepIsTransaction(max: nat, s: System, step: Step)
    requires forall key | key in s.attempts :: AttemptInv(s, key)
    ensures Next(max, s, step).b ==
            if TransactionOf(s, step).Some? then Transactions.Next(s.b, TransactionOf(s, step).value) else s.b
  {
    hide Transactions.Next, Finished, DoClaim, DoComplete, DoCompensate, DoSettle;
    match step
    case ClaimNext(key) => ClaimIsTransaction(s, key);
    case Complete(key, fault) =>
      assert key in s.attempts ==> AttemptInv(s, key);
      CompletionIsTransaction(max, s, key, fault);
    case Compensate(key, fault) => CompensationIsTransaction(s, key, fault);
    case Settle(key, fault) => SettlingIsTransaction(s, key, fault);
    case _ =>
  }

  lemma ClaimIsTransaction(s: System, key: EventKey)
    ensures DoClaim(s, key).b ==
            if TransactionOf(s, ClaimNext(key)).Some? then Transactions.Next(s.b, Transactions.ClaimEvent(key)) else s.b
  {
  }

  lemma CompletionIsTransaction(max: nat, s: System, key: EventKey, fault: Fault)
    requires key in s.attempts ==> AttemptInv(s, key)
    ensures DoComplete(max, s, key, fault).b ==
            if TransactionOf(s, Complete(key, fault)).Some? then Transactions.Next(s.b, FinishOf(key)) else s.b
  {
    hide Finished, Transactions.Next;
    if CanFinish(s, key) { FinishIsTransaction(s.b, key); }
  }

  lemma CompensationIsTransaction(s: System, key: EventKey, fault: Fault)
    ensures DoCompensate(s, key, fault).b ==
            if TransactionOf(s, Compensate(key, fault)).Some?
            then Transactions.Next(s.b, Transactions.FailAndRevoke(key.issue, key.locale, key.version)) else s.b
  {
    hide FailPublish;
  }

  lemma SettlingIsTransaction(s: System, key: EventKey, fault: Fault)
    ensures DoSettle(s, key, fault).b ==
            if TransactionOf(s, Settle(key, fault)).Some?
            then Transactions.Next(s.b, TransactionOf(s, Settle(key, fault)).value) else s.b
  {
    hide Fail, Release;
  }

  // ---------------------------------------------------------------- grants under administrators

  /** Nothing the ledger speaks about changed. */
  ghost predicate SameGrants(b: Tables, after: Tables) {
    && (forall id, l :: RecordedAt(after, id, l) == RecordedAt(b, id, l))
    && (forall id, l | RetiringAt(after, id, l).Some? :: RetiringAt(after, id, l) == RecordedAt(after, id, l))
    && after.rows == b.rows && after.outbox == b.outbox
  }

  lemma FinishKeepsGrants(b: Tables, id: Id, issue: Issue)
    requires RecordInv(b) && id in b.issues && Finish(b, id, issue).Ok?
    requires forall l :: (if l in issue.editions then issue.editions[l].grant else None) == RecordedAt(b, id, l)
    requires forall l | l in issue.editions && issue.editions[l].retiringGrant.Some? :: issue.editions[l].retiringGrant == issue.editions[l].grant
    ensures SameGrants(b, Finish(b, id, issue).value)
  {
  }

  lemma EditKeepsGrants(b: Tables, op: Transactions.Step)
    requires Inv(b) && RecordInv(b)
    requires op.EditMetadata? || op.Put? || op.EditVersion? || op.RemoveVersion? || op.Restore?
    ensures SameGrants(b, Transactions.Next(b, op))
  {
    hide Finish, LockIssue, PutVersion, RestoreIssueRevision, Taken, HasIssueRow, Inv, SameGrants;
    NothingChanged(b);
    LockedIssue(b, op.id, op.expected);
    match op
    case EditMetadata(id, expected, number, date) =>
      if UpdateIssue(b, id, expected, number, date).Ok? {
        RetiringIsRecorded(b, id);
        FinishKeepsGrants(b, id, b.issues[id].(number := Some(number), date := date));
      }
    case Put(id, l, expected, upload) =>
      if PutVersion(b, id, l, expected, upload).Ok? { PutKeepsGrants(b, id, l, expected, upload); }
    case EditVersion(id, l, expected, text) =>
      if UpdateVersion(b, id, l, expected, text).Ok? {
        RetiringIsRecorded(b, id);
        var issue := b.issues[id];
        FinishKeepsGrants(b, id, issue.(status := Draft, editions := issue.editions[l := issue.editions[l].(text := text, status := Draft)]));
      }
    case RemoveVersion(id, l, expected) =>
      if DeleteVersion(b, id, l, expected).Ok? {
        RetiringIsRecorded(b, id);
        FinishKeepsGrants(b, id, b.issues[id].(status := Draft, editions := b.issues[id].editions - {l}));
      }
    case Restore(id, revision, expected) =>
      if RestoreIssueRevision(b, id, revision, expected).Ok? { RestoreKeepsGrants(b, id, revision, expected); }
  }

  lemma PutKeepsGrants(b: Tables, id: Id, l: Locale, expected: Version, upload: Upload)
    requires Inv(b) && RecordInv(b) && PutVersion(b, id, l, expected, upload).Ok?
    ensures SameGrants(b, PutVersion(b, id, l, expected, upload).value)
  {
    hide Finish, LockIssue, Inv, SameGrants;
    LockedIssue(b, id, expected);
    RetiringIsRecorded(b, id);
    var issue := b.issues[id];
    FinishKeepsGrants(b, id, issue.(status := Draft, editions := issue.editions[l := Uploaded(EditionAt(issue, l), upload)]));
  }

  lemma RestoreKeepsGrants(b: Tables, id: Id, revision: Version, expected: Version)
    requires Inv(b) && RecordInv(b) && RestoreIssueRevision(b, id, revision, expected).Ok?
    ensures SameGrants(b, RestoreIssueRevision(b, id, revision, expected).value)
  {
    hide Finish, LockIssue, Taken, HasIssueRow, Inv, SameGrants;
    LockedIssue(b, id, expected);
    RetiringIsRecorded(b, id);
    var snapshot := b.issues[id].revisions[revision];
    FinishKeepsGrants(b, id, b.issues[id].(number := snapshot.number, date := snapshot.date, status := Draft,
                                           editions := RestoredEditions(b.issues[id].editions, snapshot.uploads)));
  }

  lemma NothingChanged(b: Tables)
    requires RecordInv(b)
    ensures SameGrants(b, b)
  {
  }

  lemma RetiringIsRecorded(b: Tables, id: Id)
    requires RecordInv(b) && id in b.issues
    ensures forall l | l in b.issues[id].editions && b.issues[id].editions[l].retiringGrant.Some? ::
      b.issues[id].editions[l].retiringGrant == b.issues[id].editions[l].grant
  {
    forall l | l in b.issues[id].editions && b.issues[id].editions[l].retiringGrant.Some?
      ensures b.issues[id].editions[l].retiringGrant == b.issues[id].editions[l].grant
    {
      assert RetiringAt(b, id, l) == RecordedAt(b, id, l);
    }
  }

  lemma RetiringIsRecordedEverywhere(b: Tables)
    requires RecordInv(b)
    ensures forall id, l | RetiringAt(b, id, l).Some? :: RetiringAt(b, id, l) == RecordedAt(b, id, l)
  {
  }

  lemma CreateKeepsGrants(b: Tables, id: Id, number: nat, date: Date)
    requires Inv(b) && RecordInv(b)
    ensures SameGrants(b, Transactions.Next(b, Transactions.Create(id, number, date)))
  {
    hide Inv, Taken, RecordInv;
    NothingChanged(b);
    if CreateIssue(b, id, number, date).Ok? {
      FreshId(b, id);
      RetiringIsRecordedEverywhere(b);
    }
  }

  lemma RemoveKeepsGrants(b: Tables, id: Id, expected: Version)
    requires RecordInv(b)
    ensures SameGrants(b, Transactions.Next(b, Transactions.Remove(id, expected)))
  {
    NothingChanged(b);
    if DeleteIssue(b, id, expected).Ok? {
      forall l ensures RecordedAt(b, id, l) == None && RetiringAt(b, id, l) == None {
        if l in b.issues[id].editions { assert !HoldsGrant(b.issues[id].editions[l]); }
      }
    }
  }

  lemma SameGrantsKeep(s: System, after: System)
    requires SystemInv(s) && Inv(after.b) && SameGrants(s.b, after.b) && after == s.(b := after.b)
    ensures SystemInv(after)
  {
    hide Inv;
    SameGrantsKeepLedger(s, after);
    hide LedgerInv, AccountInv, ShownInv, RecordInv;
    forall key | key in after.attempts ensures AttemptInv(after, key) { assert AttemptInv(s, key); }
  }

  lemma SameGrantsKeepLedger(s: System, after: System)
    requires RecordInv(s.b) && LedgerInv(s.b, s.granted, s.revoked) && AccountInv(s.b, s.revoked) && ShownInv(s.b, s.revoked)
    requires SameGrants(s.b, after.b) && after == s.(b := after.b)
    ensures RecordInv(after.b) && LedgerInv(after.b, s.granted, s.revoked) && AccountInv(after.b, s.revoked) && ShownInv(after.b, s.revoked)
  {
    hide RetireQueued, Superseded;
    forall g ensures Records(after.b, g) == Records(s.b, g) {}
    forall key | key in after.b.outbox ensures RevokerInv(after.b, s.granted, s.revoked, key, after.b.outbox[key]) {
      assert RevokerInv(s.b, s.granted, s.revoked, key, s.b.outbox[key]);
    }
  }

  ghost predicate SameRecords(b: Tables, after: Tables) {
    && (forall id, l :: RecordedAt(after, id, l) == RecordedAt(b, id, l))
    && (forall id, l :: RetiringAt(after, id, l) == RetiringAt(b, id, l))
  }

  /** A new life-cycle event, and rows that may have gone. */
  lemma StartKeepsLedger(s: System, after: System, key: EventKey)
    requires RecordInv(s.b) && LedgerInv(s.b, s.granted, s.revoked) && AccountInv(s.b, s.revoked) && ShownInv(s.b, s.revoked)
    requires SameRecords(s.b, after.b) && after == s.(b := after.b) && (key.PublishKey? || key.UnpublishKey?)
    requires key !in s.b.outbox && key in after.b.outbox && after.b.outbox == s.b.outbox[key := after.b.outbox[key]]
    requires after.b.outbox[key].status.Waiting?
    requires key.PublishKey? ==> after.b.outbox[key].grant.None?
    requires key.UnpublishKey? ==>
               after.b.outbox[key].grant.Some? && after.b.outbox[key].grant == RecordedAt(s.b, key.issue, key.locale)
    requires forall k | k in after.b.rows :: k in s.b.rows && after.b.rows[k] == s.b.rows[k]
    ensures RecordInv(after.b) && LedgerInv(after.b, s.granted, s.revoked) && AccountInv(after.b, s.revoked) && ShownInv(after.b, s.revoked)
  {
    hide RecordedAt, RetiringAt;
    forall g ensures Records(after.b, g) == Records(s.b, g) {}
    forall g ensures DeliveredAt(after.b.outbox, g) == DeliveredAt(s.b.outbox, g) && FailedAt(after.b.outbox, g) == FailedAt(s.b.outbox, g) {}
    forall k | k in after.b.outbox ensures RevokerInv(after.b, s.granted, s.revoked, k, after.b.outbox[k]) {
      if k != key { assert RevokerInv(s.b, s.granted, s.revoked, k, s.b.outbox[k]); }
    }
    AccountsKept(s.b, after.b, s.revoked);
  }

  /** Grants stay accounted for while deliveries and records are the same and retirements stay. */
  lemma AccountsKept(b: Tables, after: Tables, revoked: set<Grant>)
    requires AccountInv(b, revoked)
    requires forall g :: Records(after, g) == Records(b, g)
    requires forall g :: DeliveredAt(after.outbox, g) == DeliveredAt(b.outbox, g)
    requires forall key | key in b.outbox && key.RetireKey? :: key in after.outbox && after.outbox[key].grant == b.outbox[key].grant
    ensures AccountInv(after, revoked)
  {
    hide Records, DeliveredAt;
    forall g | DeliveredAt(after.outbox, g)
      ensures Records(after, g) || g in revoked || RetireQueued(after.outbox, g) || Superseded(after.outbox, g)
    {
      if RetireQueued(b.outbox, g) {
        var asset :| Retires(b.outbox, asset, g);
        assert Retires(after.outbox, asset, g);
      }
      if Superseded(b.outbox, g) {
        var w: Version :| g.version < w && DeliveredAt(b.outbox, Grant(g.issue, g.locale, w));
        assert DeliveredAt(after.outbox, Grant(g.issue, g.locale, w));
      }
    }
  }

  lemma AttemptsKept(s: System, after: System, key: EventKey)
    requires forall k | k in s.attempts :: AttemptInv(s, k)
    requires forall k | k in after.attempts && k != key :: k in s.attempts && after.attempts[k] == s.attempts[k]
    requires forall k | k in s.b.outbox && k != key && !k.NoticeKey? :: k in after.b.outbox && after.b.outbox[k] == s.b.outbox[k]
    requires forall k | k in s.b.outbox && k != key && k.NoticeKey? ::
               k in after.b.outbox && after.b.outbox[k].grant == s.b.outbox[k].grant
               && (s.b.outbox[k].status.Processing? ==> after.b.outbox[k].status.Processing?)
    requires s.granted <= after.granted && s.revoked <= after.revoked && (key in s.b.outbox ==> key in after.b.outbox)
    requires AttemptInv(after, key)
    ensures forall k | k in after.attempts :: AttemptInv(after, k)
  {
    forall k | k in after.attempts ensures AttemptInv(after, k) {
      if k != key { assert AttemptInv(s, k); }
    }
  }

  lemma EnteringKeepsRecords(b: Tables, after: Tables, id: Id, l: Locale, status: Status)
    requires id in b.issues && l in b.issues[id].editions && after.issues == b.issues[id := Entered(b.issues[id], l, status)]
    ensures SameRecords(b, after)
  {
  }

  lemma StartPublishWrites(b: Tables, id: Id, l: Locale, expected: Version, notify: bool)
    requires StartPublish(b, id, l, expected, notify).Ok?
    ensures var after := StartPublish(b, id, l, expected, notify).value;
      var key := PublishKey(id, l, expected + 1);
      && SameRecords(b, after) && after.rows == b.rows
      && key !in b.outbox && key in after.outbox && after.outbox == b.outbox[key := after.outbox[key]]
      && after.outbox[key].status.Waiting? && after.outbox[key].grant.None?
  {
    hide LockIssue, SameRecords, Entered;
    LockedIssue(b, id, expected);
    EnteringKeepsRecords(b, StartPublish(b, id, l, expected, notify).value, id, l, Publishing);
  }

  lemma WithdrawWrites(b: Tables, id: Id, l: Locale, expected: Version)
    requires Unpublish(b, id, l, expected).Ok?
    ensures var after := Unpublish(b, id, l, expected).value;
      var key := UnpublishKey(id, l, expected + 1);
      && SameRecords(b, after)
      && key !in b.outbox && key in after.outbox && after.outbox == b.outbox[key := after.outbox[key]]
      && after.outbox[key].status.Waiting? && after.outbox[key].grant.Some? && after.outbox[key].grant == RecordedAt(b, id, l)
      && forall k | k in after.rows :: k in b.rows && after.rows[k] == b.rows[k]
  {
    hide Relatest, LockIssue, SameRecords, Entered;
    LockedIssue(b, id, expected);
    EnteringKeepsRecords(b, Unpublish(b, id, l, expected).value, id, l, Unpublishing);
  }

  lemma StartKeeps(s: System, after: System, key: EventKey)
    requires SystemInv(s) && Inv(after.b) && after == s.(b := after.b) && (key.PublishKey? || key.UnpublishKey?)
    requires SameRecords(s.b, after.b)
    requires key !in s.b.outbox && key in after.b.outbox && after.b.outbox == s.b.outbox[key := after.b.outbox[key]]
    requires after.b.outbox[key].status.Waiting?
    requires key.PublishKey? ==> after.b.outbox[key].grant.None?
    requires key.UnpublishKey? ==>
               after.b.outbox[key].grant.Some? && after.b.outbox[key].grant == RecordedAt(s.b, key.issue, key.locale)
    requires forall k | k in after.b.rows :: k in s.b.rows && after.b.rows[k] == s.b.rows[k]
    ensures SystemInv(after)
  {
    hide Inv, LedgerInv, AccountInv, ShownInv, RecordInv, SameRecords, RecordedAt;
    StartKeepsLedger(s, after, key);
    forall k | k in after.attempts ensures AttemptInv(after, k) { assert AttemptInv(s, k); }
  }

  lemma StartPublishKeeps(s: System, id: Id, l: Locale, expected: Version, notify: bool)
    requires SystemInv(s) && StartPublish(s.b, id, l, expected, notify).Ok?
    ensures SystemInv(s.(b := StartPublish(s.b, id, l, expected, notify).value))
  {
    hide SystemInv, Inv, StartPublish, SameRecords;
    SystemParts(s);
    BulletinInvariants.StartPublishKeeps(s.b, id, l, expected, notify);
    StartPublishWrites(s.b, id, l, expected, notify);
    StartKeeps(s, s.(b := StartPublish(s.b, id, l, expected, notify).value), PublishKey(id, l, expected + 1));
  }

  lemma WithdrawKeeps(s: System, id: Id, l: Locale, expected: Version)
    requires SystemInv(s) && Unpublish(s.b, id, l, expected).Ok?
    ensures SystemInv(s.(b := Unpublish(s.b, id, l, expected).value))
  {
    hide SystemInv, Inv, Unpublish, SameRecords, RecordedAt;
    SystemParts(s);
    UnpublishKeeps(s.b, id, l, expected);
    WithdrawWrites(s.b, id, l, expected);
    StartKeeps(s, s.(b := Unpublish(s.b, id, l, expected).value), UnpublishKey(id, l, expected + 1));
  }

  lemma DoKeeps(s: System, op: Transactions.Step)
    requires SystemInv(s) && Administrative(op)
    ensures SystemInv(s.(b := Transactions.Next(s.b, op)))
  {
    hide Inv, SameGrants, SystemInv, LedgerInv, AccountInv, ShownInv, RecordInv;
    SystemParts(s);
    Transactions.NextKeeps(s.b, op);
    match op
    case Create(id, number, date) =>
      CreateKeepsGrants(s.b, id, number, date);
      SameGrantsKeep(s, s.(b := Transactions.Next(s.b, op)));
    case Remove(id, expected) =>
      RemoveKeepsGrants(s.b, id, expected);
      SameGrantsKeep(s, s.(b := Transactions.Next(s.b, op)));
    case Publish(id, l, expected, notify) =>
      if StartPublish(s.b, id, l, expected, notify).Ok? { StartPublishKeeps(s, id, l, expected, notify); }
    case Withdraw(id, l, expected) =>
      if Unpublish(s.b, id, l, expected).Ok? { WithdrawKeeps(s, id, l, expected); }
    case _ =>
      EditKeepsGrants(s.b, op);
      SameGrantsKeep(s, s.(b := Transactions.Next(s.b, op)));
  }

  lemma SystemParts(s: System)
    requires SystemInv(s)
    ensures Inv(s.b) && RecordInv(s.b) && LedgerInv(s.b, s.granted, s.revoked) && AccountInv(s.b, s.revoked) && ShownInv(s.b, s.revoked)
    ensures forall key | key in s.attempts :: AttemptInv(s, key)
  {
  }

  // ---------------------------------------------------------------- the worker keeps it

  /** Moving or ending one attempt. */
  lemma MoveKeeps(s: System, key: EventKey, after: System)
    requires SystemInv(s) && after == s.(attempts := after.attempts)
    requires forall k | k in after.attempts && k != key :: k in s.attempts && after.attempts[k] == s.attempts[k]
    requires AttemptInv(after, key)
    ensures SystemInv(after)
  {
    hide Inv, LedgerInv, AccountInv, ShownInv, RecordInv;
    AttemptsKept(s, after, key);
  }

  /** The write to one event's status that goes with settling, claiming or failing it. */
  ghost predicate StatusWritten(s: System, key: EventKey, after: Tables) {
    && key in s.b.outbox && key in after.outbox
    && after.outbox == s.b.outbox[key := s.b.outbox[key].(status := after.outbox[key].status, attempts := after.outbox[key].attempts)]
    && after.rows == s.b.rows && SameRecords(s.b, after)
    && (key.PublishKey? ==> LiveEvent(s.b.outbox[key]) && !after.outbox[key].status.Delivered?)
    && (!key.PublishKey? && LiveEvent(after.outbox[key]) ==> LiveEvent(s.b.outbox[key]))
    && (!key.PublishKey? && !LiveEvent(after.outbox[key]) && s.b.outbox[key].grant.Some? ==> s.b.outbox[key].grant.value in s.revoked)
  }

  lemma StatusKeepsLedger(s: System, key: EventKey, after: Tables)
    requires RecordInv(s.b) && LedgerInv(s.b, s.granted, s.revoked) && AccountInv(s.b, s.revoked) && ShownInv(s.b, s.revoked)
    requires StatusWritten(s, key, after)
    ensures RecordInv(after) && LedgerInv(after, s.granted, s.revoked) && AccountInv(after, s.revoked) && ShownInv(after, s.revoked)
  {
    hide RecordedAt, RetiringAt;
    forall g ensures Records(after, g) == Records(s.b, g) {}
    forall g ensures DeliveredAt(after.outbox, g) == DeliveredAt(s.b.outbox, g) && (FailedAt(s.b.outbox, g) ==> FailedAt(after.outbox, g)) {}
    forall k | k in after.outbox ensures RevokerInv(after, s.granted, s.revoked, k, after.outbox[k]) {
      assert RevokerInv(s.b, s.granted, s.revoked, k, s.b.outbox[k]);
    }
    AccountsKept(s.b, after, s.revoked);
  }

  lemma StatusKeeps(s: System, key: EventKey, after: System)
    requires SystemInv(s) && Inv(after.b) && StatusWritten(s, key, after.b)
    requires after == s.(b := after.b, attempts := after.attempts)
    requires forall k | k in after.attempts && k != key :: k in s.attempts && after.attempts[k] == s.attempts[k]
    requires AttemptInv(after, key)
    ensures SystemInv(after)
  {
    hide Inv, LedgerInv, AccountInv, ShownInv, RecordInv, SameRecords;
    StatusKeepsLedger(s, key, after.b);
    AttemptsKept(s, after, key);
  }

  lemma ClaimKeeps(s: System, key: EventKey)
    requires SystemInv(s)
    ensures SystemInv(DoClaim(s, key))
  {
    hide Inv, LedgerInv, AccountInv, ShownInv, RecordInv;
    if key in s.b.outbox && key !in s.attempts && LiveEvent(s.b.outbox[key]) {
      BulletinInvariants.ClaimKeeps(s.b, key);
      StatusKeeps(s, key, DoClaim(s, key));
    }
  }

  lemma GetAssetKeeps(max: nat, s: System, key: EventKey, reply: AssetReply)
    requires SystemInv(s)
    ensures SystemInv(DoGetAsset(max, s, key, reply))
  {
    hide Inv, LedgerInv, AccountInv, ShownInv, RecordInv;
    if At(s, key, Claimed) && key.PublishKey? {
      assert AttemptInv(s, key);
      MoveKeeps(s, key, DoGetAsset(max, s, key, reply));
    }
  }

  lemma NotifyKeeps(max: nat, s: System, key: EventKey, reply: AssetReply)
    requires SystemInv(s)
    ensures SystemInv(DoNotify(max, s, key, reply))
  {
    hide Inv, AccountInv, ShownInv, RecordInv;
    if At(s, key, Claimed) && key.NoticeKey? {
      assert AttemptInv(s, key);
      assert RevokerInv(s.b, s.granted, s.revoked, key, s.b.outbox[key]);
      hide LedgerInv;
      MoveKeeps(s, key, DoNotify(max, s, key, reply));
    }
  }

  lemma CreateGrantKeeps(s: System, key: EventKey, fault: Fault)
    requires SystemInv(s)
    ensures SystemInv(DoCreateGrant(s, key, fault))
  {
    hide Inv, LedgerInv, AccountInv, ShownInv, RecordInv;
    if At(s, key, Claimed) && key.PublishKey? {
      assert AttemptInv(s, key);
      var after := DoCreateGrant(s, key, fault);
      GrantingKeepsLedger(s, GrantOf(key));
      AttemptsKept(s, after, key);
    }
  }

  lemma GrantingKeepsLedger(s: System, g: Grant)
    requires LedgerInv(s.b, s.granted, s.revoked) && KeyOf(g) in s.b.outbox
    ensures LedgerInv(s.b, s.granted + {g}, s.revoked)
  {
    forall k | k in s.b.outbox ensures RevokerInv(s.b, s.granted + {g}, s.revoked, k, s.b.outbox[k]) {
      assert RevokerInv(s.b, s.granted, s.revoked, k, s.b.outbox[k]);
    }
  }

  /** What an event that revokes may revoke: a grant that was created, whose publication is over,
      and that no row shows. */
  lemma TargetIsHidden(s: System, key: EventKey)
    requires Inv(s.b) && RecordInv(s.b) && LedgerInv(s.b, s.granted, s.revoked) && ShownInv(s.b, s.revoked)
    requires key in s.b.outbox && LiveEvent(s.b.outbox[key]) && s.b.outbox[key].grant.Some?
    requires key.UnpublishKey? || key.RetireKey? || key.RevokeKey?
    ensures var g := s.b.outbox[key].grant.value;
      && g in s.granted && (DeliveredAt(s.b.outbox, g) || FailedAt(s.b.outbox, g))
      && forall k | k in s.b.rows :: Grant(s.b.rows[k].issue, k.0, s.b.rows[k].version) != g
  {
    var g := s.b.outbox[key].grant.value;
    assert RevokerInv(s.b, s.granted, s.revoked, key, s.b.outbox[key]);
    if key.UnpublishKey? { assert EventInv(s.b.issues, s.b.used, key, s.b.outbox[key]); }
    forall k | k in s.b.rows ensures Grant(s.b.rows[k].issue, k.0, s.b.rows[k].version) != g {
      assert RowInv(s.b.issues, k.0, k.1, s.b.rows[k]);
      assert Records(s.b, Grant(s.b.rows[k].issue, k.0, s.b.rows[k].version));
    }
  }

  lemma RevokingKeepsLedger(s: System, g: Grant)
    requires LedgerInv(s.b, s.granted, s.revoked) && AccountInv(s.b, s.revoked) && ShownInv(s.b, s.revoked)
    requires g in s.granted && (DeliveredAt(s.b.outbox, g) || FailedAt(s.b.outbox, g))
    requires forall k | k in s.b.rows :: Grant(s.b.rows[k].issue, k.0, s.b.rows[k].version) != g
    ensures LedgerInv(s.b, s.granted, s.revoked + {g}) && AccountInv(s.b, s.revoked + {g}) && ShownInv(s.b, s.revoked + {g})
  {
    hide RetireQueued, Superseded;
    forall k | k in s.b.outbox ensures RevokerInv(s.b, s.granted, s.revoked + {g}, k, s.b.outbox[k]) {
      assert RevokerInv(s.b, s.granted, s.revoked, k, s.b.outbox[k]);
    }
  }

  lemma RevokeGrantKeeps(s: System, key: EventKey, fault: Fault)
    requires SystemInv(s)
    ensures SystemInv(DoRevokeGrant(s, key, fault))
  {
    hide Inv, LedgerInv, AccountInv, ShownInv, RecordInv;
    if At(s, key, Claimed) && !key.PublishKey? && !key.NoticeKey? {
      assert AttemptInv(s, key);
      var after := DoRevokeGrant(s, key, fault);
      if fault.LostBefore? || s.b.outbox[key].grant.None? {
        MoveKeeps(s, key, after);
      } else {
        TargetIsHidden(s, key);
        RevokingKeepsLedger(s, s.b.outbox[key].grant.value);
        AttemptsKept(s, after, key);
      }
    }
  }

  lemma NoticesCarryNothing(s: System, key: EventKey)
    requires LedgerInv(s.b, s.granted, s.revoked) && key in s.b.outbox
    ensures key.NoticeKey? ==> s.b.outbox[key].grant.None?
  {
    assert RevokerInv(s.b, s.granted, s.revoked, key, s.b.outbox[key]);
  }

  lemma DeleteAssetKeeps(s: System, key: EventKey, fault: Fault)
    requires SystemInv(s)
    ensures SystemInv(DoDeleteAsset(s, key, fault))
  {
    hide Inv, LedgerInv, AccountInv, ShownInv, RecordInv;
    if key.RetireKey? && key in s.attempts {
      assert AttemptInv(s, key);
      MoveKeeps(s, key, DoDeleteAsset(s, key, fault));
    }
  }

  lemma ConfirmKeeps(s: System, key: EventKey, answered: bool)
    requires SystemInv(s)
    ensures SystemInv(DoConfirm(s, key, answered))
  {
    hide Inv, LedgerInv, AccountInv, ShownInv, RecordInv;
    if At(s, key, Confirming) {
      assert AttemptInv(s, key);
      MoveKeeps(s, key, DoConfirm(s, key, answered));
    }
  }

  lemma FailWritesStatus(s: System, key: EventKey)
    requires key in s.b.outbox
    requires key.PublishKey? ==> LiveEvent(s.b.outbox[key])
    requires !key.PublishKey? && s.b.outbox[key].grant.Some? ==> s.b.outbox[key].grant.value in s.revoked
    ensures StatusWritten(s, key, Fail(s.b, key)) && Fail(s.b, key).outbox[key].status.FailedEvent?
  {
    hide FallBack, SameRecords;
    FailingKeepsRecords(s.b, key);
  }

  lemma FailingKeepsRecords(b: Tables, key: EventKey)
    requires key in b.outbox
    ensures SameRecords(b, Fail(b, key))
  {
    hide SameRecords;
    if key.issue in b.issues {
      StatusesKeepRecords(b, Fail(b, key), key.issue);
    } else {
      assert Fail(b, key).issues == b.issues;
      StatusesKeepRecords(b, Fail(b, key), key.issue);
    }
  }

  /** Statuses and notices are no records. */
  lemma StatusesKeepRecords(b: Tables, after: Tables, id: Id)
    requires if id !in b.issues then after.issues == b.issues
             else id in after.issues && after.issues == b.issues[id := after.issues[id]] &&
                  after.issues[id].editions.Keys == b.issues[id].editions.Keys &&
                  forall l | l in b.issues[id].editions ::
                    after.issues[id].editions[l] == b.issues[id].editions[l].(status := after.issues[id].editions[l].status)
    ensures SameRecords(b, after)
  {
  }

  lemma SettleKeeps(s: System, key: EventKey, fault: Fault)
    requires SystemInv(s)
    ensures SystemInv(DoSettle(s, key, fault))
  {
    hide Inv, LedgerInv, AccountInv, ShownInv, RecordInv, StatusWritten, Fail;
    if key in s.attempts && s.attempts[key].phase.Settling? && key in s.b.outbox {
      assert AttemptInv(s, key);
      var after := DoSettle(s, key, fault);
      var verdict := s.attempts[key].phase.verdict;
      if fault.LostBefore? || (!verdict.ToFail? && !s.b.outbox[key].status.Processing?) {
        MoveKeeps(s, key, after);
      } else if verdict.ToFail? {
        BulletinInvariants.FailKeeps(s.b, key);
        FailWritesStatus(s, key);
        StatusKeeps(s, key, after);
      } else {
        BulletinInvariants.ReleaseKeeps(s.b, key, verdict.ToDefer?);
        ReleaseWritesStatus(s, key, verdict.ToDefer?);
        StatusKeeps(s, key, after);
      }
    }
  }

  lemma ReleaseWritesStatus(s: System, key: EventKey, defers: bool)
    requires key in s.b.outbox && s.b.outbox[key].status.Processing?
    ensures StatusWritten(s, key, Release(s.b, key, defers))
  {
  }

  // ---------------------------------------------------------------- completion

  ghost predicate RecordsPublished(b: Tables, after: Tables, g: Grant) {
    && (forall id, l :: RecordedAt(after, id, l) == if id == g.issue && l == g.locale then Some(g) else RecordedAt(b, id, l))
    && (forall id, l :: RetiringAt(after, id, l) == if id == g.issue && l == g.locale then None else RetiringAt(b, id, l))
  }

  ghost predicate RowsPublished(b: Tables, after: Tables, g: Grant) {
    forall k | k in after.rows ::
      || (after.rows[k].issue == g.issue && k.0 == g.locale && after.rows[k].version == g.version)
      || (k in b.rows && after.rows[k] == b.rows[k] && !(b.rows[k].issue == g.issue && k.0 == g.locale))
  }

  ghost predicate EventsPublished(b: Tables, after: Tables, g: Grant) {
    && KeyOf(g) in b.outbox
    && (forall k | k in b.outbox && !k.NoticeKey? ::
          k in after.outbox && after.outbox[k] == if k == KeyOf(g) then b.outbox[k].(status := Delivered) else b.outbox[k])
    && (forall k | k in b.outbox && k.NoticeKey? ::
          && k in after.outbox && after.outbox[k].grant == b.outbox[k].grant
          && (after.outbox[k] == b.outbox[k] || (b.outbox[k].status.FailedEvent? && LiveEvent(after.outbox[k]))))
    && (forall k | k in after.outbox && k !in b.outbox ::
          || (k.NoticeKey? && after.outbox[k].grant.None?)
          || (k.RetireKey? && k.issue == g.issue && k.locale == g.locale && after.outbox[k].status.Waiting? &&
              after.outbox[k].grant == RetiringAt(b, g.issue, g.locale)))
  }

  /** What the tables look like once publication `g` was completed. */
  ghost predicate PublishedBy(b: Tables, after: Tables, g: Grant) {
    RecordsPublished(b, after, g) && RowsPublished(b, after, g) && EventsPublished(b, after, g)
  }

  lemma CompletionWrites(b: Tables, id: Id, l: Locale, v: Version)
    requires Inv(b) && LiveAt(b.outbox, PublishKey(id, l, v)) && CompletePublish(b, id, l, v).Ok?
    ensures PublishedBy(b, CompletePublish(b, id, l, v).value, Grant(id, l, v))
  {
    CompletionWritesRecords(b, id, l, v);
    CompletionWritesRows(b, id, l, v);
    CompletionWritesEvents(b, id, l, v);
    hide CompletePublish, RecordsPublished, RowsPublished, EventsPublished;
  }

  lemma CompletionWritesRecords(b: Tables, id: Id, l: Locale, v: Version)
    requires LiveAt(b.outbox, PublishKey(id, l, v)) && CompletePublish(b, id, l, v).Ok?
    ensures RecordsPublished(b, CompletePublish(b, id, l, v).value, Grant(id, l, v))
  {
    hide CompletePublish, Advance, RequestNotice, RetireFile, WantsNotice, Deliver, RowFor;
    PublishedIs(b, id, l, v);
    hide Advance, RequestNotice, RetireFile;
  }

  lemma CompletionWritesRows(b: Tables, id: Id, l: Locale, v: Version)
    requires Inv(b) && LiveAt(b.outbox, PublishKey(id, l, v)) && CompletePublish(b, id, l, v).Ok?
    ensures RowsPublished(b, CompletePublish(b, id, l, v).value, Grant(id, l, v))
  {
    hide Inv, Advance, RequestNotice, RetireFile;
    OwnRows(b, id, l);
  }

  lemma CompletionOutbox(b: Tables, id: Id, l: Locale, v: Version)
    requires LiveAt(b.outbox, PublishKey(id, l, v)) && CompletePublish(b, id, l, v).Ok?
    ensures id in b.issues && l in b.issues[id].editions
    ensures var key := PublishKey(id, l, v);
      var retired := RetireFile(Deliver(b.outbox, key), id, l, b.issues[id].editions[l], b.outbox[key].asset);
      CompletePublish(b, id, l, v).value.outbox ==
      if WantsNotice(b.issues[id], b.outbox[key]) then RequestNotice(retired, id) else retired
  {
    hide CompletePublish, RequestNotice, RetireFile, WantsNotice;
    PublishedIs(b, id, l, v);
  }

  lemma RetireAdds(outbox: map<EventKey, Event>, id: Id, l: Locale, edition: Edition, asset: string)
    ensures var after := RetireFile(outbox, id, l, edition, asset);
      && (forall k | k in outbox :: k in after && after[k] == outbox[k])
      && forall k | k in after && k !in outbox ::
           k.RetireKey? && k.issue == id && k.locale == l && after[k].status.Waiting? && after[k].grant == edition.retiringGrant
  {
  }

  lemma NoticeAdds(outbox: map<EventKey, Event>, id: Id)
    ensures var after := RequestNotice(outbox, id);
      && (forall k | k in outbox :: k in after && after[k].grant == outbox[k].grant)
      && (forall k | k in outbox && !k.NoticeKey? :: after[k] == outbox[k])
      && (forall k | k in outbox && k.NoticeKey? :: after[k] == outbox[k] || (outbox[k].status.FailedEvent? && LiveEvent(after[k])))
      && forall k | k in after && k !in outbox :: k.NoticeKey? && after[k].grant.None?
  {
  }

  lemma CompletionWritesEvents(b: Tables, id: Id, l: Locale, v: Version)
    requires LiveAt(b.outbox, PublishKey(id, l, v)) && CompletePublish(b, id, l, v).Ok?
    ensures EventsPublished(b, CompletePublish(b, id, l, v).value, Grant(id, l, v))
  {
    hide CompletePublish, RetireFile, RequestNotice, WantsNotice, RetiringAt;
    CompletionOutbox(b, id, l, v);
    RetiringIs(b, id, l);
    var key := PublishKey(id, l, v);
    var edition := b.issues[id].editions[l];
    RetireAdds(Deliver(b.outbox, key), id, l, edition, b.outbox[key].asset);
    NoticeAdds(RetireFile(Deliver(b.outbox, key), id, l, edition, b.outbox[key].asset), id);
  }

  lemma RetiringIs(b: Tables, id: Id, l: Locale)
    requires id in b.issues && l in b.issues[id].editions
    ensures RetiringAt(b, id, l) == b.issues[id].editions[l].retiringGrant
  {
  }

  lemma CompletionKeepsLedger(s: System, after: Tables, g: Grant)
    requires Inv(s.b) && RecordInv(s.b) && LedgerInv(s.b, s.granted, s.revoked) && ShownInv(s.b, s.revoked)
    requires PublishedBy(s.b, after, g) && LiveAt(s.b.outbox, KeyOf(g)) && g in s.granted
    ensures RecordInv(after) && LedgerInv(after, s.granted, s.revoked) && ShownInv(after, s.revoked)
  {
    NoWithdrawalInFlight(s.b, g);
    hide Inv, RecordedAt, RetiringAt;
    DeliveriesAfter(s.b, after, g);
    forall x ensures Records(after, x) == (x == g || (Records(s.b, x) && !(x.issue == g.issue && x.locale == g.locale))) {}
    CompletionKeepsRecords(s.b, after, g);
    CompletionShows(s, after, g);
    hide RecordInv, ShownInv, RecordsPublished, RowsPublished;
    RetiringIsDelivered(s.b, g);
    hide Records, DeliveredAt, FailedAt, RevokerInv;
    forall k | k in after.outbox ensures RevokerInv(after, s.granted, s.revoked, k, after.outbox[k]) {
      RevokerAfterCompletion(s, after, g, k);
    }
    CompletionKeepsRevoked(s, after, g);
  }

  lemma RevokerAfterCompletion(s: System, after: Tables, g: Grant, k: EventKey)
    requires LedgerInv(s.b, s.granted, s.revoked) && EventsPublished(s.b, after, g) && k in after.outbox && g in s.granted
    requires forall x :: DeliveredAt(after.outbox, x) == (DeliveredAt(s.b.outbox, x) || x == g)
    requires forall x :: FailedAt(after.outbox, x) == FailedAt(s.b.outbox, x)
    requires !DeliveredAt(s.b.outbox, g)
    requires forall x :: Records(after, x) == (x == g || (Records(s.b, x) && !(x.issue == g.issue && x.locale == g.locale)))
    requires var h := RetiringAt(s.b, g.issue, g.locale);
      h.Some? ==> h.value.issue == g.issue && h.value.locale == g.locale && DeliveredAt(s.b.outbox, h.value)
    requires k in s.b.outbox && k.UnpublishKey? && k.issue == g.issue && k.locale == g.locale ==> !LiveEvent(s.b.outbox[k])
    ensures RevokerInv(after, s.granted, s.revoked, k, after.outbox[k])
  {
    hide Records, DeliveredAt, FailedAt, RetiringAt;
    if k in s.b.outbox { assert RevokerInv(s.b, s.granted, s.revoked, k, s.b.outbox[k]); }
  }

  lemma CompletionKeepsRevoked(s: System, after: Tables, g: Grant)
    requires LedgerInv(s.b, s.granted, s.revoked) && EventsPublished(s.b, after, g)
    ensures forall key | key in after.outbox && !key.PublishKey? && !LiveEvent(after.outbox[key]) && after.outbox[key].grant.Some? ::
      after.outbox[key].grant.value in s.revoked
  {
    hide RevokerInv, DeliveredAt, FailedAt, RetiringAt;
  }

  lemma DeliveriesAfter(b: Tables, after: Tables, g: Grant)
    requires EventsPublished(b, after, g) && LiveAt(b.outbox, KeyOf(g))
    ensures forall x :: DeliveredAt(after.outbox, x) == (DeliveredAt(b.outbox, x) || x == g)
    ensures forall x :: FailedAt(after.outbox, x) == FailedAt(b.outbox, x)
    ensures !DeliveredAt(b.outbox, g) && !FailedAt(b.outbox, g)
    ensures forall x | KeyOf(x) in b.outbox :: KeyOf(x) in after.outbox
  {
  }

  lemma RetiringIsDelivered(b: Tables, g: Grant)
    requires RecordInv(b)
    ensures var h := RetiringAt(b, g.issue, g.locale);
      h.Some? ==> h.value.issue == g.issue && h.value.locale == g.locale && DeliveredAt(b.outbox, h.value)
  {
  }

  lemma CompletionKeepsRecords(b: Tables, after: Tables, g: Grant)
    requires RecordInv(b) && RecordsPublished(b, after, g)
    requires forall x :: DeliveredAt(after.outbox, x) == (DeliveredAt(b.outbox, x) || x == g)
    ensures RecordInv(after)
  {
    hide RecordedAt, RetiringAt, DeliveredAt;
  }

  lemma CompletionShows(s: System, after: Tables, g: Grant)
    requires ShownInv(s.b, s.revoked) && RowsPublished(s.b, after, g)
    requires LedgerInv(s.b, s.granted, s.revoked) && LiveAt(s.b.outbox, KeyOf(g))
    requires forall x :: Records(after, x) == (x == g || (Records(s.b, x) && !(x.issue == g.issue && x.locale == g.locale)))
    ensures ShownInv(after, s.revoked)
  {
    hide Records;
  }

  lemma NoWithdrawalInFlight(b: Tables, g: Grant)
    requires Inv(b) && LiveAt(b.outbox, KeyOf(g))
    ensures forall key | key in b.outbox && key.UnpublishKey? && key.issue == g.issue && key.locale == g.locale :: !LiveEvent(b.outbox[key])
  {
    assert EventInv(b.issues, b.used, KeyOf(g), b.outbox[KeyOf(g)]);
    forall key | key in b.outbox && key.UnpublishKey? && key.issue == g.issue && key.locale == g.locale
      ensures !LiveEvent(b.outbox[key])
    {
      assert EventInv(b.issues, b.used, key, b.outbox[key]);
    }
  }

  /** Whatever an edition recorded before is superseded by the publication that completes. */
  lemma PriorIsOlder(b: Tables, g: Grant, prior: Grant)
    requires Inv(b) && LiveAt(b.outbox, KeyOf(g))
    requires prior.issue == g.issue && prior.locale == g.locale && DeliveredAt(b.outbox, prior)
    ensures prior.version < g.version
  {
    assert EventInv(b.issues, b.used, KeyOf(g), b.outbox[KeyOf(g)]);
    assert EventInv(b.issues, b.used, KeyOf(prior), b.outbox[KeyOf(prior)]);
  }

  lemma CompletionKeepsAccounts(s: System, after: Tables, g: Grant)
    requires Inv(s.b) && RecordInv(s.b) && AccountInv(s.b, s.revoked)
    requires PublishedBy(s.b, after, g) && LiveAt(s.b.outbox, KeyOf(g))
    ensures AccountInv(after, s.revoked)
  {
    hide Inv, RecordInv, PublishedBy, RetireQueued, Superseded, Records, DeliveredAt;
    forall x | DeliveredAt(after.outbox, x)
      ensures Records(after, x) || x in s.revoked || RetireQueued(after.outbox, x) || Superseded(after.outbox, x)
    {
      AccountAfterCompletion(s, after, g, x);
    }
  }

  lemma AccountAfterCompletion(s: System, after: Tables, g: Grant, x: Grant)
    requires Inv(s.b) && AccountInv(s.b, s.revoked) && PublishedBy(s.b, after, g) && LiveAt(s.b.outbox, KeyOf(g))
    requires DeliveredAt(after.outbox, x)
    ensures Records(after, x) || x in s.revoked || RetireQueued(after.outbox, x) || Superseded(after.outbox, x)
  {
    hide Inv, RowsPublished, RecordedAt, RetiringAt;
    DeliveriesAfter(s.b, after, g);
    hide DeliveredAt, LiveAt;
    if x != g {
      if Records(s.b, x) && x.issue == g.issue && x.locale == g.locale {
        PriorIsOlder(s.b, g, x);
        assert DeliveredAt(after.outbox, Grant(x.issue, x.locale, g.version));
      }
      if RetireQueued(s.b.outbox, x) {
        var asset :| Retires(s.b.outbox, asset, x);
        assert Retires(after.outbox, asset, x);
      }
      if Superseded(s.b.outbox, x) {
        var w: Version :| x.version < w && DeliveredAt(s.b.outbox, Grant(x.issue, x.locale, w));
        assert DeliveredAt(after.outbox, Grant(x.issue, x.locale, w));
      }
    }
  }

  lemma PublishCommitKeeps(s: System, key: EventKey)
    requires SystemInv(s) && CanFinish(s, key) && key.PublishKey? && Finished(s.b, key).Ok?
    ensures SystemInv(End(s.(b := Finished(s.b, key).value), key))
    ensures DeliveredAt(Finished(s.b, key).value.outbox, GrantOf(key))
  {
    hide Inv, LedgerInv, AccountInv, ShownInv, RecordInv, PublishedBy, CompletePublish;
    assert AttemptInv(s, key);
    var after := Finished(s.b, key).value;
    CompletePublishKeeps(s.b, key.issue, key.locale, key.version);
    CompletionWrites(s.b, key.issue, key.locale, key.version);
    CompletionKeepsLedger(s, after, GrantOf(key));
    CompletionKeepsAccounts(s, after, GrantOf(key));
    CompletionEvents(s.b, after, GrantOf(key));
    AttemptsKept(s, End(s.(b := after), key), key);
  }

  lemma CompletionEvents(b: Tables, after: Tables, g: Grant)
    requires PublishedBy(b, after, g)
    ensures KeyOf(g) in after.outbox && DeliveredAt(after.outbox, g)
    ensures forall k | k in b.outbox && k != KeyOf(g) && !k.NoticeKey? :: k in after.outbox && after.outbox[k] == b.outbox[k]
    ensures forall k | k in b.outbox && k.NoticeKey? ::
              && k in after.outbox && after.outbox[k].grant == b.outbox[k].grant
              && (after.outbox[k] == b.outbox[k] || (b.outbox[k].status.FailedEvent? && LiveEvent(after.outbox[k])))
  {
  }

  /** What a completed withdrawal leaves. */
  lemma WithdrawalWrites(b: Tables, id: Id, l: Locale, v: Version)
    requires LiveAt(b.outbox, UnpublishKey(id, l, v)) && CompleteUnpublish(b, id, l, v).Ok?
    ensures var after := CompleteUnpublish(b, id, l, v).value;
      && (forall i, k :: RecordedAt(after, i, k) == if i == id && k == l then None else RecordedAt(b, i, k))
      && (forall i, k :: RetiringAt(after, i, k) == if i == id && k == l then None else RetiringAt(b, i, k))
      && after.rows == b.rows && after.outbox == Deliver(b.outbox, UnpublishKey(id, l, v))
      && id in b.issues && l in b.issues[id].editions && b.issues[id].editions[l].status.Unpublishing? && b.issues[id].version == v
  {
  }

  lemma WithdrawalKeepsLedger(s: System, after: Tables, key: EventKey)
    requires Inv(s.b) && RecordInv(s.b) && LedgerInv(s.b, s.granted, s.revoked) && AccountInv(s.b, s.revoked) && ShownInv(s.b, s.revoked)
    requires key.UnpublishKey? && LiveAt(s.b.outbox, key) && s.b.outbox[key].grant.Some? && s.b.outbox[key].grant.value in s.revoked
    requires forall i, k :: RecordedAt(after, i, k) == if i == key.issue && k == key.locale then None else RecordedAt(s.b, i, k)
    requires forall i, k :: RetiringAt(after, i, k) == if i == key.issue && k == key.locale then None else RetiringAt(s.b, i, k)
    requires after.rows == s.b.rows && after.outbox == Deliver(s.b.outbox, key)
    ensures RecordInv(after) && LedgerInv(after, s.granted, s.revoked) && AccountInv(after, s.revoked) && ShownInv(after, s.revoked)
  {
    hide Inv, RecordedAt, RetiringAt, AccountInv, ShownInv;
    var h := s.b.outbox[key].grant.value;
    assert RevokerInv(s.b, s.granted, s.revoked, key, s.b.outbox[key]);
    NothingShownOf(s, key);
    OnlyWithdrawal(s.b, key);
    SoleWithdrawal(s, key, h);
    WithdrawalFates(s.b, after, key, h);
    hide Records, DeliveredAt, FailedAt, RevokerInv, RecordInv, LedgerInv;
    WithdrawalKeepsRecords(s.b, after, key);
    WithdrawalShows(s, after, key, h);
    WithdrawalKeepsLedgerItself(s, after, key, h);
    WithdrawalKeepsAccounts(s, after, h);
  }

  /** Deliveries and failures stay; the grant is not recorded any more. */
  lemma WithdrawalFates(b: Tables, after: Tables, key: EventKey, h: Grant)
    requires key.UnpublishKey? && key in b.outbox && after.outbox == Deliver(b.outbox, key) && RecordInv(b)
    requires h.issue == key.issue && h.locale == key.locale && Records(b, h)
    requires forall i, k :: RecordedAt(after, i, k) == if i == key.issue && k == key.locale then None else RecordedAt(b, i, k)
    ensures forall x :: DeliveredAt(after.outbox, x) == DeliveredAt(b.outbox, x)
    ensures forall x :: FailedAt(after.outbox, x) == FailedAt(b.outbox, x)
    ensures forall x :: Records(after, x) == (Records(b, x) && x != h)
  {
    hide RecordedAt;
    forall x ensures Records(after, x) == (Records(b, x) && x != h) {
      if Records(b, x) && x.issue == key.issue && x.locale == key.locale { assert x == h; }
    }
  }

  /** No other live withdrawal carries the grant. */
  lemma SoleWithdrawal(s: System, key: EventKey, h: Grant)
    requires LedgerInv(s.b, s.granted, s.revoked) && key.UnpublishKey? && h.issue == key.issue && h.locale == key.locale
    requires forall k | k in s.b.outbox && k.UnpublishKey? && k.issue == key.issue && k.locale == key.locale && LiveEvent(s.b.outbox[k]) :: k == key
    ensures forall k | k in s.b.outbox && k.UnpublishKey? && k != key && s.b.outbox[k].grant == Some(h) :: !LiveEvent(s.b.outbox[k])
  {
    forall k | k in s.b.outbox && k.UnpublishKey? && k != key && s.b.outbox[k].grant == Some(h) ensures !LiveEvent(s.b.outbox[k]) {
      assert RevokerInv(s.b, s.granted, s.revoked, k, s.b.outbox[k]);
    }
  }

  lemma WithdrawalKeepsLedgerItself(s: System, after: Tables, key: EventKey, h: Grant)
    requires LedgerInv(s.b, s.granted, s.revoked) && key in s.b.outbox && !key.PublishKey?
    requires s.b.outbox[key].grant == Some(h) && h in s.revoked && after.outbox == Deliver(s.b.outbox, key)
    requires forall x :: DeliveredAt(after.outbox, x) == DeliveredAt(s.b.outbox, x)
    requires forall x :: FailedAt(after.outbox, x) == FailedAt(s.b.outbox, x)
    requires forall x :: Records(after, x) == (Records(s.b, x) && x != h)
    requires forall k | k in s.b.outbox && k.UnpublishKey? && k != key && s.b.outbox[k].grant == Some(h) :: !LiveEvent(s.b.outbox[k])
    ensures LedgerInv(after, s.granted, s.revoked)
  {
    hide Records, DeliveredAt, FailedAt, RevokerInv;
    forall k | k in after.outbox ensures RevokerInv(after, s.granted, s.revoked, k, after.outbox[k]) {
      RevokerAfterWithdrawal(s, after, key, h, k);
    }
  }

  lemma WithdrawalKeepsRecords(b: Tables, after: Tables, key: EventKey)
    requires RecordInv(b) && key.UnpublishKey?
    requires forall i, k :: RecordedAt(after, i, k) == if i == key.issue && k == key.locale then None else RecordedAt(b, i, k)
    requires forall i, k :: RetiringAt(after, i, k) == if i == key.issue && k == key.locale then None else RetiringAt(b, i, k)
    requires forall x :: DeliveredAt(after.outbox, x) == DeliveredAt(b.outbox, x)
    ensures RecordInv(after)
  {
    hide RecordedAt, RetiringAt, DeliveredAt;
  }

  lemma WithdrawalShows(s: System, after: Tables, key: EventKey, h: Grant)
    requires ShownInv(s.b, s.revoked) && key.UnpublishKey? && h.issue == key.issue && h.locale == key.locale && after.rows == s.b.rows
    requires forall k | k in s.b.rows :: !(s.b.rows[k].issue == key.issue && k.0 == key.locale)
    requires forall x :: Records(after, x) == (Records(s.b, x) && x != h)
    ensures ShownInv(after, s.revoked)
  {
    hide Records;
  }

  lemma RevokerAfterWithdrawal(s: System, after: Tables, key: EventKey, h: Grant, k: EventKey)
    requires k in s.b.outbox && RevokerInv(s.b, s.granted, s.revoked, k, s.b.outbox[k])
    requires key in s.b.outbox && after.outbox == Deliver(s.b.outbox, key)
    requires forall x :: DeliveredAt(after.outbox, x) == DeliveredAt(s.b.outbox, x)
    requires forall x :: FailedAt(after.outbox, x) == FailedAt(s.b.outbox, x)
    requires forall x :: Records(after, x) == (Records(s.b, x) && x != h)
    requires k.UnpublishKey? && k != key && s.b.outbox[k].grant == Some(h) ==> !LiveEvent(s.b.outbox[k])
    ensures RevokerInv(after, s.granted, s.revoked, k, after.outbox[k])
  {
    hide Records, DeliveredAt, FailedAt;
  }

  lemma WithdrawalKeepsAccounts(s: System, after: Tables, h: Grant)
    requires AccountInv(s.b, s.revoked) && h in s.revoked
    requires forall x :: Records(after, x) == (Records(s.b, x) && x != h)
    requires forall x :: DeliveredAt(after.outbox, x) == DeliveredAt(s.b.outbox, x)
    requires forall k | k in s.b.outbox && k.RetireKey? :: k in after.outbox && after.outbox[k].grant == s.b.outbox[k].grant
    ensures AccountInv(after, s.revoked)
  {
    hide Records, DeliveredAt;
    forall x | DeliveredAt(after.outbox, x)
      ensures Records(after, x) || x in s.revoked || RetireQueued(after.outbox, x) || Superseded(after.outbox, x)
    {
      if RetireQueued(s.b.outbox, x) {
        var asset :| Retires(s.b.outbox, asset, x);
        assert Retires(after.outbox, asset, x);
      }
      if Superseded(s.b.outbox, x) {
        var w: Version :| x.version < w && DeliveredAt(s.b.outbox, Grant(x.issue, x.locale, w));
        assert DeliveredAt(after.outbox, Grant(x.issue, x.locale, w));
      }
    }
  }

  /** An edition being withdrawn shows no row. */
  lemma NothingShownOf(s: System, key: EventKey)
    requires Inv(s.b) && key.UnpublishKey? && LiveAt(s.b.outbox, key)
    ensures forall k | k in s.b.rows :: !(s.b.rows[k].issue == key.issue && k.0 == key.locale)
  {
    assert EventInv(s.b.issues, s.b.used, key, s.b.outbox[key]);
    forall k | k in s.b.rows ensures !(s.b.rows[k].issue == key.issue && k.0 == key.locale) {
      assert RowInv(s.b.issues, k.0, k.1, s.b.rows[k]);
    }
  }

  /** There is one live withdrawal of an edition at most. */
  lemma OnlyWithdrawal(b: Tables, key: EventKey)
    requires Inv(b) && key.UnpublishKey? && LiveAt(b.outbox, key)
    ensures forall k | k in b.outbox && k.UnpublishKey? && k.issue == key.issue && k.locale == key.locale && LiveEvent(b.outbox[k]) :: k == key
  {
    assert EventInv(b.issues, b.used, key, b.outbox[key]);
    forall k | k in b.outbox && k.UnpublishKey? && k.issue == key.issue && k.locale == key.locale && LiveEvent(b.outbox[k])
      ensures k == key
    {
      assert EventInv(b.issues, b.used, k, b.outbox[k]);
    }
  }

  lemma WithdrawCommitKeeps(s: System, key: EventKey)
    requires SystemInv(s) && CanFinish(s, key) && key.UnpublishKey? && Finished(s.b, key).Ok?
    ensures SystemInv(End(s.(b := Finished(s.b, key).value), key))
    ensures key in Finished(s.b, key).value.outbox
    ensures Finished(s.b, key).value.outbox[key] == s.b.outbox[key].(status := Delivered)
  {
    hide Inv, AccountInv, ShownInv, RecordInv, CompleteUnpublish, RecordedAt, RetiringAt;
    assert AttemptInv(s, key);
    assert RevokerInv(s.b, s.granted, s.revoked, key, s.b.outbox[key]);
    hide LedgerInv;
    var after := Finished(s.b, key).value;
    CompleteUnpublishKeeps(s.b, key.issue, key.locale, key.version);
    WithdrawalWrites(s.b, key.issue, key.locale, key.version);
    WithdrawalKeepsLedger(s, after, key);
    AttemptsKept(s, End(s.(b := after), key), key);
  }

  lemma NoticeWritesStatus(s: System, id: Id)
    requires NoticeKey(id) in s.b.outbox && s.b.outbox[NoticeKey(id)].status.Processing? && s.b.outbox[NoticeKey(id)].grant.None?
    ensures StatusWritten(s, NoticeKey(id), CompleteNotification(s.b, id))
    ensures CompleteNotification(s.b, id).outbox[NoticeKey(id)].status.Delivered?
  {
  }

  lemma CleanupCommitKeeps(s: System, key: EventKey)
    requires SystemInv(s) && CanFinish(s, key) && !key.PublishKey? && !key.UnpublishKey?
    ensures Finished(s.b, key).Ok? && SystemInv(End(s.(b := Finished(s.b, key).value), key))
    ensures key in Finished(s.b, key).value.outbox
    ensures Finished(s.b, key).value.outbox[key].(attempts := 0) == s.b.outbox[key].(status := Delivered, attempts := 0)
  {
    hide Inv, LedgerInv, AccountInv, ShownInv, RecordInv;
    assert AttemptInv(s, key);
    NoticesCarryNothing(s, key);
    if key.NoticeKey? {
      NoticeWritesStatus(s, key.issue);
      CompleteNotificationKeeps(s.b, key.issue);
    } else {
      BulletinInvariants.WriteKeeps(s.b, key, Delivered, s.b.outbox[key].attempts);
    }
    StatusKeeps(s, key, End(s.(b := Finished(s.b, key).value), key));
  }

  lemma CompleteKeeps(max: nat, s: System, key: EventKey, fault: Fault)
    requires SystemInv(s)
    ensures SystemInv(DoComplete(max, s, key, fault))
  {
    hide Inv, LedgerInv, AccountInv, ShownInv, RecordInv, Finished;
    if CanFinish(s, key) {
      assert AttemptInv(s, key);
      NoticesCarryNothing(s, key);
      var after := DoComplete(max, s, key, fault);
      if fault.LostBefore? || Finished(s.b, key).Err? {
        MoveKeeps(s, key, after);
      } else {
        if key.PublishKey? { PublishCommitKeeps(s, key); }
        else if key.UnpublishKey? { WithdrawCommitKeeps(s, key); }
        else { CleanupCommitKeeps(s, key); }
        MoveKeeps(End(s.(b := Finished(s.b, key).value), key), key, after);
      }
    }
  }

  // ---------------------------------------------------------------- compensation

  lemma CompensationWrites(b: Tables, g: Grant)
    requires LiveAt(b.outbox, KeyOf(g)) && !RevokeQueued(b.outbox, g)
    ensures var after := FailPublish(b, g.issue, g.locale, g.version);
      && SameRecords(b, after) && after.rows == b.rows
      && RevokeQueued(after.outbox, g)
      && var key := RevokeKey(g.issue, g.locale, g.version);
        && after.outbox[key].status.Waiting? && after.outbox[key].grant == Some(g)
        && after.outbox == b.outbox[KeyOf(g) := b.outbox[KeyOf(g)].(status := FailedEvent)][key := after.outbox[key]]
  {
    hide SameRecords;
    FailingKeepsRecords(b, KeyOf(g));
    FailingMarks(b, KeyOf(g));
    hide Fail;
    SameRecordsOf(Fail(b, KeyOf(g)), FailPublish(b, g.issue, g.locale, g.version), b);
  }

  lemma FailingMarks(b: Tables, key: EventKey)
    requires key in b.outbox
    ensures Fail(b, key).outbox == b.outbox[key := b.outbox[key].(status := FailedEvent)] && Fail(b, key).rows == b.rows
  {
  }

  lemma SameRecordsOf(failed: Tables, after: Tables, b: Tables)
    requires SameRecords(b, failed) && after.issues == failed.issues
    ensures SameRecords(b, after)
  {
    forall id, l ensures RecordedAt(after, id, l) == RecordedAt(failed, id, l) && RetiringAt(after, id, l) == RetiringAt(failed, id, l) {}
    hide RecordedAt, RetiringAt;
  }

  lemma CompensationKeepsLedger(s: System, after: Tables, g: Grant)
    requires RecordInv(s.b) && LedgerInv(s.b, s.granted, s.revoked) && AccountInv(s.b, s.revoked) && ShownInv(s.b, s.revoked)
    requires LiveAt(s.b.outbox, KeyOf(g)) && g in s.granted && SameRecords(s.b, after) && after.rows == s.b.rows
    requires var key := RevokeKey(g.issue, g.locale, g.version);
      && key !in s.b.outbox && key in after.outbox && after.outbox[key].status.Waiting? && after.outbox[key].grant == Some(g)
      && after.outbox == s.b.outbox[KeyOf(g) := s.b.outbox[KeyOf(g)].(status := FailedEvent)][key := after.outbox[key]]
    ensures RecordInv(after) && LedgerInv(after, s.granted, s.revoked) && AccountInv(after, s.revoked) && ShownInv(after, s.revoked)
  {
    hide RecordedAt, RetiringAt;
    forall x ensures Records(after, x) == Records(s.b, x) {}
    forall x ensures DeliveredAt(after.outbox, x) == DeliveredAt(s.b.outbox, x) && FailedAt(after.outbox, x) == (FailedAt(s.b.outbox, x) || x == g) {}
    AccountsKept(s.b, after, s.revoked);
    hide AccountInv, Records;
    forall k | k in after.outbox ensures RevokerInv(after, s.granted, s.revoked, k, after.outbox[k]) {
      if k in s.b.outbox { assert RevokerInv(s.b, s.granted, s.revoked, k, s.b.outbox[k]); }
    }
  }

  lemma LiveIsNotRevoked(s: System, g: Grant)
    requires LedgerInv(s.b, s.granted, s.revoked) && LiveAt(s.b.outbox, KeyOf(g))
    ensures !RevokeQueued(s.b.outbox, g) && g !in s.revoked
  {
    forall key | key in s.b.outbox ensures key.RevokeKey? ==> FailedAt(s.b.outbox, GrantOf(key)) {
      assert RevokerInv(s.b, s.granted, s.revoked, key, s.b.outbox[key]);
    }
    assert !FailedAt(s.b.outbox, g);
    assert GrantOf(RevokeKey(g.issue, g.locale, g.version)) == g;
  }

  lemma CompensateKeeps(s: System, key: EventKey, fault: Fault)
    requires SystemInv(s)
    ensures SystemInv(DoCompensate(s, key, fault))
  {
    hide Inv, LedgerInv, AccountInv, ShownInv, RecordInv, FailPublish, SameRecords;
    if At(s, key, Compensating) && key.PublishKey? {
      assert AttemptInv(s, key);
      var after := DoCompensate(s, key, fault);
      if fault.LostBefore? {
        MoveKeeps(s, key, after);
      } else {
        LiveIsNotRevoked(s, GrantOf(key));
        CompensationWrites(s.b, GrantOf(key));
        BulletinInvariants.FailPublishKeeps(s.b, key.issue, key.locale, key.version);
        CompensationKeepsLedger(s, after.b, GrantOf(key));
        AttemptsKept(s, after, key);
      }
    }
  }

  // ---------------------------------------------------------------- all of it

  lemma NextKeeps(max: nat, s: System, step: Step)
    requires SystemInv(s)
    ensures SystemInv(Next(max, s, step))
  {
    hide SystemInv, Transactions.Next;
    match step
    case Do(op) => if Administrative(op) { DoKeeps(s, op); }
    case ClaimNext(key) => ClaimKeeps(s, key);
    case GetAsset(key, reply) => GetAssetKeeps(max, s, key, reply);
    case Notify(key, reply) => NotifyKeeps(max, s, key, reply);
    case CreateGrant(key, fault) => CreateGrantKeeps(s, key, fault);
    case RevokeGrant(key, fault) => RevokeGrantKeeps(s, key, fault);
    case DeleteAsset(key, fault) => DeleteAssetKeeps(s, key, fault);
    case Complete(key, fault) => CompleteKeeps(max, s, key, fault);
    case Confirm(key, answered) => ConfirmKeeps(s, key, answered);
    case Compensate(key, fault) => CompensateKeeps(s, key, fault);
    case Settle(key, fault) => SettleKeeps(s, key, fault);
    case Crash(key) => CrashKeeps(s, key);
  }

  lemma CrashKeeps(s: System, key: EventKey)
    requires SystemInv(s)
    ensures SystemInv(End(s, key))
  {
    MoveKeeps(s, key, End(s, key));
  }

  lemma {:induction false} RunKeeps(max: nat, s: System, steps: seq<Step>)
    requires SystemInv(s)
    ensures SystemInv(Run(max, s, steps))
    decreases steps
  {
    hide SystemInv, Next;
    if steps != [] {
      NextKeeps(max, s, steps[0]);
      RunKeeps(max, Next(max, s, steps[0]), steps[1..]);
    }
  }
}
