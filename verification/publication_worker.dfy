/** The publication worker against the Home outbox and the remote grant service.

    Every remote call and every commit may succeed, be lost before it took effect, or take
    effect and still report an error; an attempt may also die between any two of its steps.
    Attempts on different events, and administrators, interleave freely. What is assumed is
    the lease: an event is not claimed again while an attempt on it is under way. */
module PublicationWorker {
  import opened ContentModel
  import opened PageGroup
  import opened PageGroupInvariants
  import opened PageGroupHistory

  datatype Phase = Claimed | Granted | Confirming | Compensating | Revoked | Settling(verdict: Verdict)

  /** An attempt under way; `holds` once it obtained its grant. */
  datatype Attempt = Attempt(phase: Phase, holds: bool)

  /** The tables, the remote grants ever created and revoked, the attempts under way, and the
      publications the worker failed without compensating (a history variable). */
  datatype System = System(
    db: Db,
    granted: set<Grant>,
    revoked: set<Grant>,
    attempts: map<EventKey, Attempt>,
    dropped: set<Grant>)

  datatype Step =
    | Do(op: Op)
    | Claim(key: EventKey)
    | GetAsset(key: EventKey, reply: AssetReply)
    | CreateGrant(key: EventKey, fault: Fault)
    | Complete(key: EventKey, fault: Fault)
    | Confirm(key: EventKey, answered: bool)
    | Compensate(key: EventKey, fault: Fault)
    | RevokeGrant(key: EventKey, fault: Fault)
    | Acknowledge(key: EventKey, fault: Fault)
    | Settle(key: EventKey, fault: Fault)
    | Crash(key: EventKey)

  function SetStatus(db: Db, key: EventKey, status: EventStatus, attempts: nat): Db
    requires key in db.outbox
  {
    db.(outbox := db.outbox[key := db.outbox[key].(status := status, attempts := attempts)])
  }

  predicate At(s: System, key: EventKey, phase: Phase) {
    key in s.attempts && s.attempts[key].phase == phase && key in s.db.outbox
  }

  function Move(s: System, key: EventKey, phase: Phase): System
    requires key in s.attempts
  {
    s.(attempts := s.attempts[key := s.attempts[key].(phase := phase)])
  }

  function End(s: System, key: EventKey): System {
    s.(attempts := s.attempts - {key})
  }

  /** processNext on an ordinary error: fail once the attempts are used up, otherwise retry. */
  function Ordinary(max: nat, db: Db, key: EventKey): Verdict
    requires key in db.outbox
  {
    if db.outbox[key].attempts >= max then ToFail else ToRetry
  }

  function DoClaim(s: System, key: EventKey): System {
    if key in s.db.outbox && key !in s.attempts && LiveEvent(s.db.outbox[key]) then
      s.(db := SetStatus(s.db, key, Processing, s.db.outbox[key].attempts + 1),
         attempts := s.attempts[key := Attempt(Claimed, false)])
    else s
  }

  /** publishHome up to the grant: an asset that is not usable settles the attempt. */
  function DoGetAsset(max: nat, s: System, key: EventKey, reply: AssetReply): System {
    if !At(s, key, Claimed) || !key.PublishKey? then s
    else match reply
      case Ready => s
      case Transient => Move(s, key, Settling(Ordinary(max, s.db, key)))
      case Terminal => Move(s, key, Settling(ToFail))
      case NotReady(overdue) => Move(s, key, Settling(if overdue then ToFail else ToDefer))
  }

  /** A failed grant call is a compensation error, which is retried however often it happened. */
  function DoCreateGrant(s: System, key: EventKey, fault: Fault): System {
    if !At(s, key, Claimed) || !key.PublishKey? then s
    else match fault
      case Fine => s.(granted := s.granted + {key.version}, attempts := s.attempts[key := Attempt(Granted, true)])
      case LostBefore => Move(s, key, Settling(ToRetry))
      case LostAfter => Move(s, key, Settling(ToRetry)).(granted := s.granted + {key.version})
  }

  /** handleContentPublishFailure for an error that is not ErrStalePublication. */
  function AfterError(max: nat, s: System, key: EventKey): System
    requires key in s.attempts && key in s.db.outbox
  {
    if s.db.outbox[key].attempts < max then Move(s, key, Settling(ToRetry)) else Move(s, key, Confirming)
  }

  function DoComplete(r: Rules, max: nat, s: System, key: EventKey, fault: Fault): System {
    if !At(s, key, Granted) || !key.PublishKey? then s
    else if fault.LostBefore? then AfterError(max, s, key)
    else match CompleteHomePublish(r, s.db, key.version, key.version)
      case Err(error) => if error.Stale? then Move(s, key, Compensating) else AfterError(max, s, key)
      case Ok(db) =>
        var done := s.(db := db);
        if fault.Fine? then End(done, key) else AfterError(max, done, key)
  }

  /** EventDelivered, asked before compensating. */
  function DoConfirm(s: System, key: EventKey, answered: bool): System {
    if !At(s, key, Confirming) then s
    else if !answered then Move(s, key, Settling(ToRetry))
    else if s.db.outbox[key].status.Delivered? then End(s, key)
    else Move(s, key, Compensating)
  }

  function DoCompensate(s: System, key: EventKey, fault: Fault): System {
    if !At(s, key, Compensating) || !key.PublishKey? then s
    else if fault.LostBefore? then Move(s, key, Settling(ToRetry))
    else match FailHomePublish(s.db, key.version, key.version)
      case Err(_) => Move(s, key, Settling(ToRetry))
      case Ok(db) =>
        var done := s.(db := db);
        if fault.Fine? then End(done, key) else Move(done, key, Settling(ToRetry))
  }

  /** revokeGrant: a grant that is already gone counts as revoked. */
  function DoRevokeGrant(s: System, key: EventKey, fault: Fault): System {
    if !At(s, key, Claimed) || key.PublishKey? then s
    else match fault
      case Fine => Move(s, key, Revoked).(revoked := s.revoked + {key.grant})
      case LostBefore => Move(s, key, Settling(ToRetry))
      case LostAfter => Move(s, key, Settling(ToRetry)).(revoked := s.revoked + {key.grant})
  }

  /** Repository.Complete after a revocation; its error is an ordinary one. */
  function DoAcknowledge(max: nat, s: System, key: EventKey, fault: Fault): System {
    if !At(s, key, Revoked) then s
    else
      var done := if fault.LostBefore? then s else s.(db := SetStatus(s.db, key, Delivered, s.db.outbox[key].attempts));
      if fault.Fine? then End(done, key) else Move(done, key, Settling(Ordinary(max, s.db, key)))
  }

  /** Retry, Defer and Fail. The first two only touch an event that is still processing. */
  function DoSettle(s: System, key: EventKey, fault: Fault): System {
    if key !in s.attempts || !s.attempts[key].phase.Settling? || key !in s.db.outbox then s
    else if fault.LostBefore? then End(s, key)
    else
      var event := s.db.outbox[key];
      match s.attempts[key].phase.verdict
      case ToRetry =>
        End(if event.status.Processing? then s.(db := SetStatus(s.db, key, Waiting, event.attempts)) else s, key)
      case ToDefer =>
        var left := if event.attempts == 0 then 0 else event.attempts - 1;
        End(if event.status.Processing? then s.(db := SetStatus(s.db, key, Waiting, left)) else s, key)
      case ToFail =>
        if key.PublishKey? then
          match FailPublication(s.db, key.version)
          case Ok(db) => End(s.(db := db, dropped := s.dropped + {key.version}), key)
          case Err(_) => End(s, key)
        else End(s.(db := SetStatus(s.db, key, FailedEvent, event.attempts)), key)
  }

  function Next(r: Rules, max: nat, s: System, step: Step): System {
    match step
    case Do(op) => (match Apply(r, s.db, op) case Ok(db) => s.(db := db) case Err(_) => s)
    case Claim(key) => DoClaim(s, key)
    case GetAsset(key, reply) => DoGetAsset(max, s, key, reply)
    case CreateGrant(key, fault) => DoCreateGrant(s, key, fault)
    case Complete(key, fault) => DoComplete(r, max, s, key, fault)
    case Confirm(key, answered) => DoConfirm(s, key, answered)
    case Compensate(key, fault) => DoCompensate(s, key, fault)
    case RevokeGrant(key, fault) => DoRevokeGrant(s, key, fault)
    case Acknowledge(key, fault) => DoAcknowledge(max, s, key, fault)
    case Settle(key, fault) => DoSettle(s, key, fault)
    case Crash(key) => End(s, key)
  }

  function Run(r: Rules, max: nat, s: System, steps: seq<Step>): System
    decreases steps
  {
    if steps == [] then s else Run(r, max, Next(r, max, s, steps[0]), steps[1..])
  }

  // ---------------------------------------------------------------- the invariant

  /** The recorded banner is the one the public rows show. */
  ghost predicate BannerInv(page: Page, rows: Rows) {
    && (page.live.Some? <==>
          rows != map[] && VersionOf(rows) in page.revisions && page.revisions[VersionOf(rows)].template.HomeV2?)
    && (page.live.Some? ==>
          var w := VersionOf(rows);
          page.live.value == Banner(page.revisions[w].banner, w, w))
  }

  ghost predicate PublishAttemptInv(s: System, v: Version, a: Attempt, status: EventStatus) {
    && !a.phase.Revoked?
    && (a.phase.Claimed? ==> !a.holds)
    && (a.phase.Granted? || a.phase.Confirming? || a.phase.Compensating? ==> a.holds)
    && (a.holds ==> v in s.granted && v !in s.dropped)
    && (a.holds && a.phase.Settling? ==> a.phase.verdict.ToRetry?)
    && (a.phase.Claimed? || a.phase.Granted? || a.phase.Compensating? ==> status.Processing?)
    && (a.phase.Confirming? ==> status.Processing? || status.Delivered?)
    && (a.phase.Settling? && !a.phase.verdict.ToRetry? ==> status.Processing?)
  }

  ghost predicate RevokeAttemptInv(s: System, g: Grant, a: Attempt) {
    && !a.holds
    && (a.phase.Claimed? || a.phase.Revoked? || a.phase.Settling?)
    && (a.phase.Revoked? || (a.phase.Settling? && a.phase.verdict.ToFail?) ==> g in s.revoked)
  }

  ghost predicate AttemptInv(s: System, key: EventKey) {
    key in s.attempts ==>
      && key in s.db.outbox
      && (key.PublishKey? ==> PublishAttemptInv(s, key.version, s.attempts[key], s.db.outbox[key].status))
      && (!key.PublishKey? ==> RevokeAttemptInv(s, key.grant, s.attempts[key]))
  }

  predicate RevokeTarget(outbox: map<EventKey, Event>, g: Grant) {
    RevokeKey(g) in outbox || CompensateKey(g, g) in outbox
  }

  /** Every grant is accounted for: who created it, who is to revoke it, who forgot it. */
  ghost predicate LedgerInv(outbox: map<EventKey, Event>, granted: set<Grant>, revoked: set<Grant>, dropped: set<Grant>) {
    && (forall g | g in granted :: PublishKey(g) in outbox)
    && (forall g | g in revoked :: RevokeTarget(outbox, g))
    && (forall g | DeliveredAt(outbox, g) || RevokeTarget(outbox, g) :: g in granted)
    && (forall g | FailedAt(outbox, g) :: CompensateKey(g, g) in outbox <==> g !in dropped)
    && (forall g | g in dropped :: FailedAt(outbox, g))
    && (forall key | key in outbox && !key.PublishKey? && !LiveEvent(outbox[key]) :: key.grant in revoked)
  }

  ghost predicate SystemInv(r: Rules, s: System) {
    && Inv(r, s.db)
    && BannerInv(s.db.page, s.db.pageRows)
    && LedgerInv(s.db.outbox, s.granted, s.revoked, s.dropped)
    && forall key | key in s.attempts :: AttemptInv(s, key)
  }

  /** Tables as they were before manifests existed: every resource published on its own, no
      events, no Home on the second template yet. A fresh page qualifies. */
  ghost predicate Initial(r: Rules, s: System) {
    && PageInv(r, s.db.page, s.db.pageRows)
    && ChildrenInv(s.db.children, s.db.childRows)
    && !s.db.page.status.Publishing?
    && s.db.page.live.None?
    && (s.db.pageRows != map[] ==> !s.db.page.revisions[VersionOf(s.db.pageRows)].template.HomeV2?)
    && s.db.manifests == map[] && s.db.outbox == map[]
    && s.granted == {} && s.revoked == {} && s.dropped == {} && s.attempts == map[]
  }

  // ---------------------------------------------------------------- administrators keep it

  /** What a transaction does to the outbox: it adds waiting events, none of them a
      compensation, and changes no event that is there. */
  ghost predicate OutboxAdds(before: map<EventKey, Event>, after: map<EventKey, Event>) {
    && (forall key | key in before :: key in after && after[key] == before[key])
    && (forall key | key in after && key !in before :: !key.CompensateKey? && after[key].status.Waiting?)
  }

  lemma RetireAddsEvents(r: Rules, db: Db)
    ensures OutboxAdds(db.outbox, RetireBanner(r, db).outbox)
  {
  }

  lemma PublishGroupAddsEvents(r: Rules, db: Db, expected: Version)
    requires PublishGroup(r, db, expected).Ok?
    ensures OutboxAdds(db.outbox, PublishGroup(r, db, expected).value.outbox)
  {
    hide CaptureBaseline, CollectItems, OutboxAdds, RetireBanner, PublishMembers, MemberRows;
    BaselineGrows(r, db);
    var based := CaptureBaseline(r, db).value;
    var m := Collect(r, based, expected + 1).value;
    RetireAddsEvents(r, GoLive(r, InsertManifest(r, based, m, ManifestPublished).value, m, db.page.live).value);
  }

  lemma UnpublishGroupAddsEvents(r: Rules, db: Db, expected: Version)
    requires UnpublishGroup(r, db, expected).Ok?
    ensures OutboxAdds(db.outbox, UnpublishGroup(r, db, expected).value.outbox)
  {
    hide CaptureBaseline, WithdrawItems, WithdrawMembers, OutboxAdds, RetireBanner;
    BaselineGrows(r, db);
    var based := CaptureBaseline(r, db).value;
    var m := Manifest(based.page.version, based.page.version + 1, WithdrawItems(based.children, based.childRows));
    var page := RevisedPage(based.page, Unpublished, based.page.content).value;
    RetireAddsEvents(r, Hide(InsertManifest(r, based, m, ManifestUnpublished).value, page, m.items));
  }

  lemma StartHomePublishAddsEvents(r: Rules, db: Db, expected: Version)
    requires StartHomePublish(r, db, expected).Ok?
    ensures OutboxAdds(db.outbox, StartHomePublish(r, db, expected).value.outbox)
  {
    BaselineGrows(r, db);
  }

  lemma ApplyAddsEvents(r: Rules, db: Db, op: Op)
    requires Apply(r, db, op).Ok?
    ensures OutboxAdds(db.outbox, Apply(r, db, op).value.outbox)
  {
    hide VideoTaken, NamedByManifest, RestoreError, PublishGroup, UnpublishGroup, StartHomePublish;
    match op
    case OpPublishGroup(expected) => PublishGroupAddsEvents(r, db, expected);
    case OpUnpublishGroup(expected) => UnpublishGroupAddsEvents(r, db, expected);
    case OpStartHomePublish(expected) => StartHomePublishAddsEvents(r, db, expected);
    case _ =>
  }

  lemma AddedEventsKeepLedger(r: Rules, before: map<EventKey, Event>, live: Option<Banner>, after: map<EventKey, Event>, s: System)
    requires LedgerInv(before, s.granted, s.revoked, s.dropped)
    requires OutboxAdds(before, after) && GrantInv(live, after)
    ensures LedgerInv(after, s.granted, s.revoked, s.dropped)
  {
    forall g ensures DeliveredAt(after, g) == DeliveredAt(before, g) && FailedAt(after, g) == FailedAt(before, g) {}
    forall g | RevokeTarget(after, g) ensures g in s.granted {
      if RevokeKey(g) in after { assert DeliveredAt(before, g); }
    }
  }

  lemma EditKeepsBanner(before: Page, after: Page, rows: Rows)
    requires BannerInv(before, rows) && PageGrows(before, after) && after.live == before.live
    requires rows != map[] ==> VersionOf(rows) in before.revisions
    ensures BannerInv(after, rows)
  {
  }

  lemma PublishGroupRetires(r: Rules, db: Db, expected: Version)
    requires PageInv(r, db.page, db.pageRows) && PublishGroup(r, db, expected).Ok?
    requires r.kind.About? ==> db.page.live.None?
    ensures var after := PublishGroup(r, db, expected).value;
      && after.page.status.Published? && after.page.live.None? && !after.page.content.template.HomeV2?
      && after.page.version in after.page.revisions && after.page.revisions[after.page.version] == after.page.content
  {
    hide CaptureBaseline, CollectItems, PublishMembers, MemberRows, PageRowsOf, RevisionClash, PublishGroup, PageReady;
    PublishGroupSteps(r, db, expected);
    PublishedTemplate(r, db, expected);
  }

  lemma PublishedTemplate(r: Rules, db: Db, expected: Version)
    requires PublishGroup(r, db, expected).Ok? && TemplateOf(r.kind, db.page.content.template)
    ensures !db.page.content.template.HomeV2?
  {
    hide CaptureBaseline, Collect, InsertManifest, GoLive, RetireBanner, PageReady;
  }

  lemma UnpublishGroupRetires(r: Rules, db: Db, expected: Version)
    requires UnpublishGroup(r, db, expected).Ok?
    requires r.kind.About? ==> db.page.live.None?
    ensures var after := UnpublishGroup(r, db, expected).value;
      after.page.live.None? && after.pageRows == map[]
  {
    hide CaptureBaseline, WithdrawItems, WithdrawMembers;
    BaselineGrows(r, db);
  }

  lemma OtherOpsKeepLive(r: Rules, db: Db, op: Op)
    requires Apply(r, db, op).Ok? && !op.OpPublishGroup? && !op.OpUnpublishGroup?
    ensures Apply(r, db, op).value.page.live == db.page.live
  {
    hide VideoTaken, NamedByManifest, CollectItems, RestoreError, CaptureBaseline, AllReady;
    if op.OpStartHomePublish? { BaselineGrows(r, db); }
  }

  lemma ApplyIs(r: Rules, db: Db, op: Op)
    ensures op.OpPublishGroup? ==> Apply(r, db, op) == PublishGroup(r, db, op.expected)
    ensures op.OpUnpublishGroup? ==> Apply(r, db, op) == UnpublishGroup(r, db, op.expected)
  {
  }

  lemma AboutHasNoBanner(r: Rules, db: Db)
    requires Inv(r, db) && r.kind.About?
    ensures db.page.live.None?
  {
  }

  lemma PublishedPageRows(r: Rules, db: Db)
    requires Inv(r, db) && db.page.status.Published?
    ensures db.pageRows != map[] && VersionOf(db.pageRows) == db.page.version && db.page.version in db.page.revisions
  {
    CompleteRowsAreUniform(db.pageRows, db.page.version);
  }

  lemma RowsAreOnRecord(r: Rules, db: Db)
    requires Inv(r, db)
    ensures db.pageRows != map[] ==> VersionOf(db.pageRows) in db.page.revisions
    ensures forall id | id in db.childRows :: db.childRows[id] != map[]
  {
  }

  lemma ApplyKeepsBanner(r: Rules, db: Db, op: Op)
    requires Inv(r, db) && BannerInv(db.page, db.pageRows) && Apply(r, db, op).Ok?
    ensures var after := Apply(r, db, op).value; BannerInv(after.page, after.pageRows)
  {
    hide Apply, Inv, PublishGroup, UnpublishGroup, PageInv, ChildrenInv;
    ApplyKeeps(r, db, op);
    var after := Apply(r, db, op).value;
    ApplyIs(r, db, op);
    match op
    case OpPublishGroup(expected) =>
      InvParts(r, db);
      if r.kind.About? { AboutHasNoBanner(r, db); }
      PublishGroupRetires(r, db, expected);
      PublishedPageRows(r, after);
    case OpUnpublishGroup(expected) =>
      if r.kind.About? { AboutHasNoBanner(r, db); }
      UnpublishGroupRetires(r, db, expected);
    case _ =>
      RowsAreOnRecord(r, db);
      EditsLeaveRowsAlone(r, db, op);
      ApplyGrows(r, db, op);
      OtherOpsKeepLive(r, db, op);
      EditKeepsBanner(db.page, after.page, db.pageRows);
  }

  /** Nothing an attempt on another event relies on changed. */
  ghost predicate Undisturbed(before: System, after: System, key: EventKey) {
    && before.granted <= after.granted && before.revoked <= after.revoked
    && (forall g | g in after.dropped && g !in before.dropped :: key == PublishKey(g))
    && forall k | k in after.attempts && k != key ::
         && k in before.attempts && after.attempts[k] == before.attempts[k]
         && (k in before.db.outbox ==> k in after.db.outbox && after.db.outbox[k].status == before.db.outbox[k].status)
  }

  lemma UndisturbedKeep(before: System, after: System, key: EventKey)
    requires Undisturbed(before, after, key) && AttemptInv(after, key)
    requires forall k | k in before.attempts :: AttemptInv(before, k)
    ensures forall k | k in after.attempts :: AttemptInv(after, k)
  {
    forall k | k in after.attempts ensures AttemptInv(after, k) {
      if k != key { assert AttemptInv(before, k); }
    }
  }

  lemma DoKeeps(r: Rules, s: System, op: Op)
    requires SystemInv(r, s) && Apply(r, s.db, op).Ok?
    ensures SystemInv(r, s.(db := Apply(r, s.db, op).value))
  {
    hide Inv, BannerInv, LedgerInv, Apply, OutboxAdds;
    var after := s.(db := Apply(r, s.db, op).value);
    ApplyKeeps(r, s.db, op);
    ApplyKeepsBanner(r, s.db, op);
    ApplyAddsEvents(r, s.db, op);
    InvParts(r, after.db);
    AddedEventsKeepLedger(r, s.db.outbox, after.db.page.live, after.db.outbox, s);
    AddedEventsKeepAttempts(s, after);
  }

  lemma AddedEventsKeepAttempts(before: System, after: System)
    requires after == before.(db := after.db) && OutboxAdds(before.db.outbox, after.db.outbox)
    requires forall k | k in before.attempts :: AttemptInv(before, k)
    ensures forall k | k in after.attempts :: AttemptInv(after, k)
  {
    forall k | k in after.attempts ensures AttemptInv(after, k) { assert AttemptInv(before, k); }
  }

  // ---------------------------------------------------------------- the worker keeps it

  /** Writing one event's status and lease, where the ledger has nothing to say about it. */
  lemma StatusKeepsLedger(s: System, key: EventKey, status: EventStatus, attempts: nat)
    requires key in s.db.outbox && LedgerInv(s.db.outbox, s.granted, s.revoked, s.dropped)
    requires key.PublishKey? ==> LiveEvent(s.db.outbox[key]) && (status.Waiting? || status.Processing?)
    requires !key.PublishKey? && !status.Waiting? && !status.Processing? ==> key.grant in s.revoked
    ensures LedgerInv(SetStatus(s.db, key, status, attempts).outbox, s.granted, s.revoked, s.dropped)
  {
    var after := SetStatus(s.db, key, status, attempts).outbox;
    forall g ensures DeliveredAt(after, g) == DeliveredAt(s.db.outbox, g) && FailedAt(after, g) == FailedAt(s.db.outbox, g) {}
  }

  /** The same for the whole system, provided the attempt on the event stays in order. */
  lemma StatusKeeps(r: Rules, s: System, key: EventKey, status: EventStatus, attempts: nat, after: System)
    requires SystemInv(r, s) && key in s.db.outbox
    requires key.PublishKey? ==> LiveEvent(s.db.outbox[key]) && (status.Waiting? || status.Processing?)
    requires !key.PublishKey? && !status.Waiting? && !status.Processing? ==> key.grant in s.revoked
    requires after == s.(db := SetStatus(s.db, key, status, attempts), attempts := after.attempts)
    requires forall k | k in after.attempts && k != key :: k in s.attempts && after.attempts[k] == s.attempts[k]
    requires AttemptInv(after, key)
    ensures SystemInv(r, after)
  {
    hide Inv, BannerInv, LedgerInv;
    EventWriteKeeps(r, s.db, key, status, attempts);
    StatusKeepsLedger(s, key, status, attempts);
    UndisturbedKeep(s, after, key);
  }

  /** Moving or ending one attempt. */
  lemma AttemptKeeps(r: Rules, s: System, key: EventKey, after: System)
    requires SystemInv(r, s) && after == s.(attempts := after.attempts)
    requires forall k | k in after.attempts && k != key :: k in s.attempts && after.attempts[k] == s.attempts[k]
    requires AttemptInv(after, key)
    ensures SystemInv(r, after)
  {
    hide Inv, BannerInv, LedgerInv;
    UndisturbedKeep(s, after, key);
  }

  lemma ClaimKeeps(r: Rules, s: System, key: EventKey)
    requires SystemInv(r, s)
    ensures SystemInv(r, DoClaim(s, key))
  {
    hide Inv, BannerInv, LedgerInv;
    if key in s.db.outbox && key !in s.attempts && LiveEvent(s.db.outbox[key]) {
      StatusKeeps(r, s, key, Processing, s.db.outbox[key].attempts + 1, DoClaim(s, key));
    }
  }

  lemma GetAssetKeeps(r: Rules, max: nat, s: System, key: EventKey, reply: AssetReply)
    requires SystemInv(r, s)
    ensures SystemInv(r, DoGetAsset(max, s, key, reply))
  {
    hide Inv, BannerInv, LedgerInv;
    if At(s, key, Claimed) && key.PublishKey? {
      assert AttemptInv(s, key);
      AttemptKeeps(r, s, key, DoGetAsset(max, s, key, reply));
    }
  }

  lemma CreateGrantKeeps(r: Rules, s: System, key: EventKey, fault: Fault)
    requires SystemInv(r, s)
    ensures SystemInv(r, DoCreateGrant(s, key, fault))
  {
    if At(s, key, Claimed) && key.PublishKey? {
      hide Inv, BannerInv, LedgerInv, AttemptInv;
      assert AttemptInv(s, key);
      LiveIsNotDropped(s, key);
      CreationKeepsLedger(s, key.version);
      CreationKeepsAttempts(s, key, fault);
    }
  }

  lemma LiveIsNotDropped(s: System, key: EventKey)
    requires LedgerInv(s.db.outbox, s.granted, s.revoked, s.dropped)
    requires AttemptInv(s, key) && At(s, key, Claimed) && key.PublishKey?
    ensures key.version !in s.dropped && key == PublishKey(key.version)
  {
  }

  lemma CreationKeepsAttempts(s: System, key: EventKey, fault: Fault)
    requires At(s, key, Claimed) && key.PublishKey? && key.version !in s.dropped
    requires forall k | k in s.attempts :: AttemptInv(s, k)
    ensures var after := DoCreateGrant(s, key, fault); forall k | k in after.attempts :: AttemptInv(after, k)
  {
    var after := DoCreateGrant(s, key, fault);
    assert AttemptInv(s, key);
    assert AttemptInv(after, key);
    hide DoCreateGrant, AttemptInv;
    UndisturbedKeep(s, after, key);
  }

  lemma CreationKeepsLedger(s: System, g: Grant)
    requires LedgerInv(s.db.outbox, s.granted, s.revoked, s.dropped) && PublishKey(g) in s.db.outbox
    ensures LedgerInv(s.db.outbox, s.granted + {g}, s.revoked, s.dropped)
  {
  }

  lemma AfterErrorKeeps(r: Rules, max: nat, s: System, key: EventKey)
    requires SystemInv(r, s) && key.PublishKey? && key in s.attempts && s.attempts[key].holds
    requires s.db.outbox[key].status.Processing? || s.db.outbox[key].status.Delivered?
    ensures SystemInv(r, AfterError(max, s, key))
  {
    hide Inv, BannerInv, LedgerInv;
    assert AttemptInv(s, key);
    AttemptKeeps(r, s, key, AfterError(max, s, key));
  }

  /** The commit of a completion, before the attempt moves on. */
  lemma CommitKeeps(r: Rules, s: System, v: Version)
    requires Inv(r, s.db) && LedgerInv(s.db.outbox, s.granted, s.revoked, s.dropped)
    requires PublishKey(v) in s.db.outbox && s.db.outbox[PublishKey(v)].status.Processing? && v in s.granted
    requires CompleteHomePublish(r, s.db, v, v).Ok?
    ensures var db := CompleteHomePublish(r, s.db, v, v).value;
      && Inv(r, db) && BannerInv(db.page, db.pageRows)
      && DeliveredAt(db.outbox, v)
      && LedgerInv(db.outbox, s.granted, s.revoked, s.dropped)
      && (forall k | k in s.db.outbox && k != PublishKey(v) :: k in db.outbox && db.outbox[k] == s.db.outbox[k])
  {
    hide BannerInv, LedgerInv, CompleteHomePublish;
    CompleteHomePublishKeeps(r, s.db, v);
    CompletionShowsBanner(r, s.db, v);
    CompletionOutbox(r, s.db, v);
    DeliveryKeepsLedger(s, v);
    hide PageInv, ChildrenInv, ManifestsInv, EventsInv, Frozen;
  }

  lemma CompletionShowsBanner(r: Rules, db: Db, v: Version)
    requires Inv(r, db) && CompleteHomePublish(r, db, v, v).Ok? && !DeliveredAt(db.outbox, v)
    ensures var after := CompleteHomePublish(r, db, v, v).value; BannerInv(after.page, after.pageRows)
  {
    hide Inv, CompleteHomePublish, PageRowsOf, ChildReady, AllReady, CollectItems, PublishMembers, MemberRows, RevisionClash;
    CompletedTables(r, db, v);
    CompletionRecordsBanner(r, db, v);
    ReadyRows(r, db.page.content, v);
    CompleteRowsAreUniform(PageRowsOf(r, db.page.content, v), v);
  }

  lemma ReadyRows(r: Rules, content: PageContent, v: Version)
    requires PageReady(r, content)
    ensures CompleteAt(PageRowsOf(r, content, v), v)
  {
  }

  lemma CompletionRecordsBanner(r: Rules, db: Db, v: Version)
    requires CompleteHomePublish(r, db, v, v).Ok? && !DeliveredAt(db.outbox, v)
    ensures db.page.content.template.HomeV2?
    ensures CompleteHomePublish(r, db, v, v).value.page.live == Some(Banner(db.page.content.banner, v, db.page.version))
  {
    hide GoLive, LoadPending, MembersCurrent;
    CompletionSteps(r, db, v);
    GoLiveIgnoresManifests(r, db, db.manifests, db.manifests[db.page.version].manifest, Some(Banner(db.page.content.banner, v, db.page.version)));
  }

  lemma CompletionOutbox(r: Rules, db: Db, v: Version)
    requires CompleteHomePublish(r, db, v, v).Ok? && !DeliveredAt(db.outbox, v)
    ensures CompleteHomePublish(r, db, v, v).value.outbox == DeliveredOutbox(db.page.live, db.outbox, v)
  {
  }

  lemma DeliveryKeepsLedger(s: System, v: Version)
    requires LedgerInv(s.db.outbox, s.granted, s.revoked, s.dropped) && GrantInv(s.db.page.live, s.db.outbox)
    requires PublishKey(v) in s.db.outbox && LiveEvent(s.db.outbox[PublishKey(v)]) && v in s.granted
    ensures LedgerInv(DeliveredOutbox(s.db.page.live, s.db.outbox, v), s.granted, s.revoked, s.dropped)
  {
    var after := DeliveredOutbox(s.db.page.live, s.db.outbox, v);
    forall g ensures DeliveredAt(after, g) == (DeliveredAt(s.db.outbox, g) || g == v) && FailedAt(after, g) == FailedAt(s.db.outbox, g) {}
  }

  lemma CompleteKeeps(r: Rules, max: nat, s: System, key: EventKey, fault: Fault)
    requires SystemInv(r, s)
    ensures SystemInv(r, DoComplete(r, max, s, key, fault))
  {
    if At(s, key, Granted) && key.PublishKey? {
      assert AttemptInv(s, key);
      if fault.LostBefore? {
        AfterErrorKeeps(r, max, s, key);
      } else {
        match CompleteHomePublish(r, s.db, key.version, key.version)
        case Err(error) =>
          if error.Stale? { AttemptKeeps(r, s, key, Move(s, key, Compensating)); } else { AfterErrorKeeps(r, max, s, key); }
        case Ok(db) =>
          CommitKeeps(r, s, key.version);
          var ended := End(s.(db := db), key);
          UndisturbedKeep(s, ended, key);
          if !fault.Fine? { ErrorAfterCommit(r, max, s, key, db); }
      }
    }
  }

  lemma ErrorAfterCommit(r: Rules, max: nat, s: System, key: EventKey, db: Db)
    requires SystemInv(r, s) && At(s, key, Granted) && key.PublishKey?
    requires SystemInv(r, End(s.(db := db), key)) && DeliveredAt(db.outbox, key.version)
    ensures SystemInv(r, AfterError(max, s.(db := db), key))
  {
    hide Inv, BannerInv, LedgerInv;
    assert AttemptInv(s, key);
    var after := AfterError(max, s.(db := db), key);
    UndisturbedKeep(End(s.(db := db), key), after, key);
  }

  lemma ConfirmKeeps(r: Rules, s: System, key: EventKey, answered: bool)
    requires SystemInv(r, s)
    ensures SystemInv(r, DoConfirm(s, key, answered))
  {
    hide Inv, BannerInv, LedgerInv;
    if At(s, key, Confirming) {
      assert AttemptInv(s, key);
      AttemptKeeps(r, s, key, DoConfirm(s, key, answered));
    }
  }

  lemma CompensationKeepsLedger(s: System, v: Version, after: map<EventKey, Event>)
    requires LedgerInv(s.db.outbox, s.granted, s.revoked, s.dropped)
    requires PublishKey(v) in s.db.outbox && LiveEvent(s.db.outbox[PublishKey(v)]) && v in s.granted
    requires FailHomePublish(s.db, v, v).Ok? && after == FailHomePublish(s.db, v, v).value.outbox
    ensures LedgerInv(after, s.granted, s.revoked, s.dropped)
    ensures FailedAt(after, v) && PublishKey(v) in after && CompensateKey(v, v) in after
    ensures forall k | k in s.db.outbox && k != PublishKey(v) :: k in after && after[k] == s.db.outbox[k]
  {
    CompensatedOutbox(s.db, v);
    hide FailHomePublish, DeliveredAt, FailedAt, RevokeTarget;
    CompensatedFacts(s.db.outbox, v, after);
    assert PublishKey(v) in s.db.outbox;
  }

  lemma CompensatedFacts(before: map<EventKey, Event>, v: Version, after: map<EventKey, Event>)
    requires PublishKey(v) in before && LiveEvent(before[PublishKey(v)])
    requires var failed := before[PublishKey(v) := before[PublishKey(v)].(status := FailedEvent)];
      after == failed || (CompensateKey(v, v) in after && LiveEvent(after[CompensateKey(v, v)]) &&
                          after == failed[CompensateKey(v, v) := after[CompensateKey(v, v)]])
    requires CompensateKey(v, v) in after
    ensures forall g :: DeliveredAt(after, g) == DeliveredAt(before, g)
    ensures forall g :: FailedAt(after, g) == (FailedAt(before, g) || g == v)
    ensures forall g :: RevokeTarget(after, g) == (RevokeTarget(before, g) || g == v)
  {
  }

  lemma CompensatedOutbox(db: Db, v: Version)
    requires FailHomePublish(db, v, v).Ok?
    ensures PublishKey(v) in db.outbox
    ensures var failed := db.outbox[PublishKey(v) := db.outbox[PublishKey(v)].(status := FailedEvent)];
      var key := CompensateKey(v, v);
      FailHomePublish(db, v, v).value.outbox ==
      if key in failed then failed else failed[key := Event(Waiting, 0, RevokePayload(db.outbox[PublishKey(v)].payload.asset, v))]
  {
  }

  lemma FailedOutbox(db: Db, v: Version)
    requires FailPublication(db, v).Ok?
    ensures PublishKey(v) in db.outbox
    ensures FailPublication(db, v).value.outbox == db.outbox[PublishKey(v) := db.outbox[PublishKey(v)].(status := FailedEvent)]
  {
  }

  lemma FailureKeepsBanner(db: Db, v: Version)
    requires FailPublication(db, v).Ok? && BannerInv(db.page, db.pageRows)
    ensures FailHomePublish(db, v, v).Ok?
    ensures var after := FailHomePublish(db, v, v).value; BannerInv(after.page, after.pageRows)
    ensures var after := FailPublication(db, v).value; BannerInv(after.page, after.pageRows)
  {
  }

  lemma CompensateKeeps(r: Rules, s: System, key: EventKey, fault: Fault)
    requires SystemInv(r, s)
    ensures SystemInv(r, DoCompensate(s, key, fault))
  {
    if At(s, key, Compensating) && key.PublishKey? {
      hide Inv, BannerInv, LedgerInv, FailHomePublish;
      assert AttemptInv(s, key);
      var v := key.version;
      if fault.LostBefore? || FailHomePublish(s.db, v, v).Err? {
        AttemptKeeps(r, s, key, Move(s, key, Settling(ToRetry)));
      } else {
        CompensationCommitKeeps(r, s, v);
        CompensationKeepsAttempts(s, key, fault, FailHomePublish(s.db, v, v).value);
        CompensationCommits(s, key, fault);
      }
    }
  }

  lemma CompensationKeepsAttempts(s: System, key: EventKey, fault: Fault, db: Db)
    requires key.PublishKey? && At(s, key, Compensating) && !fault.LostBefore? && FailHomePublish(s.db, key.version, key.version) == Ok(db)
    requires key in db.outbox && forall k | k in s.db.outbox && k != key :: k in db.outbox && db.outbox[k] == s.db.outbox[k]
    requires forall k | k in s.attempts :: AttemptInv(s, k)
    ensures var after := DoCompensate(s, key, fault); forall k | k in after.attempts :: AttemptInv(after, k)
  {
    hide FailHomePublish;
    var after := DoCompensate(s, key, fault);
    assert AttemptInv(s, key);
    assert AttemptInv(after, key);
    hide DoCompensate, AttemptInv;
    UndisturbedKeep(s, after, key);
  }

  lemma CompensationCommits(s: System, key: EventKey, fault: Fault)
    requires At(s, key, Compensating) && key.PublishKey? && !fault.LostBefore? && FailHomePublish(s.db, key.version, key.version).Ok?
    ensures var after := DoCompensate(s, key, fault);
      && after.db == FailHomePublish(s.db, key.version, key.version).value
      && after.granted == s.granted && after.revoked == s.revoked && after.dropped == s.dropped
  {
    hide FailHomePublish;
  }

  lemma CompensationCommitKeeps(r: Rules, s: System, v: Version)
    requires Inv(r, s.db) && BannerInv(s.db.page, s.db.pageRows) && LedgerInv(s.db.outbox, s.granted, s.revoked, s.dropped)
    requires PublishKey(v) in s.db.outbox && s.db.outbox[PublishKey(v)].status.Processing? && v in s.granted
    requires FailHomePublish(s.db, v, v).Ok?
    ensures var db := FailHomePublish(s.db, v, v).value;
      && Inv(r, db) && BannerInv(db.page, db.pageRows) && LedgerInv(db.outbox, s.granted, s.revoked, s.dropped)
      && PublishKey(v) in db.outbox
      && (forall k | k in s.db.outbox && k != PublishKey(v) :: k in db.outbox && db.outbox[k] == s.db.outbox[k])
  {
    hide Inv, BannerInv, LedgerInv, FailHomePublish, FailPublication;
    var db := FailHomePublish(s.db, v, v).value;
    FailHomePublishKeeps(r, s.db, v);
    FailsAlike(s.db, v);
    FailureKeepsBanner(s.db, v);
    CompensationKeepsLedger(s, v, db.outbox);
  }

  lemma FailsAlike(db: Db, v: Version)
    ensures FailHomePublish(db, v, v).Ok? <==> FailPublication(db, v).Ok?
  {
  }

  lemma RevokeGrantKeeps(r: Rules, s: System, key: EventKey, fault: Fault)
    requires SystemInv(r, s)
    ensures SystemInv(r, DoRevokeGrant(s, key, fault))
  {
    if At(s, key, Claimed) && !key.PublishKey? {
      hide Inv, BannerInv, LedgerInv, Revokes;
      assert AttemptInv(s, key);
      if key.CompensateKey? { InvParts(r, s.db); CompensatesItsOwn(s.db, key); }
      RevocationKeepsLedger(s, key.grant);
      RevocationKeepsAttempts(s, key, fault);
    }
  }

  lemma CompensatesItsOwn(db: Db, key: EventKey)
    requires GrantInv(db.page.live, db.outbox) && key in db.outbox && key.CompensateKey?
    ensures key == CompensateKey(key.grant, key.grant)
  {
  }

  lemma RevocationKeepsAttempts(s: System, key: EventKey, fault: Fault)
    requires At(s, key, Claimed) && !key.PublishKey?
    requires forall k | k in s.attempts :: AttemptInv(s, k)
    ensures var after := DoRevokeGrant(s, key, fault); forall k | k in after.attempts :: AttemptInv(after, k)
  {
    var after := DoRevokeGrant(s, key, fault);
    assert AttemptInv(s, key);
    assert AttemptInv(after, key);
    hide DoRevokeGrant, AttemptInv;
    UndisturbedKeep(s, after, key);
  }

  lemma RevocationKeepsLedger(s: System, g: Grant)
    requires LedgerInv(s.db.outbox, s.granted, s.revoked, s.dropped) && RevokeTarget(s.db.outbox, g)
    ensures LedgerInv(s.db.outbox, s.granted, s.revoked + {g}, s.dropped)
  {
  }

  lemma AcknowledgeKeeps(r: Rules, max: nat, s: System, key: EventKey, fault: Fault)
    requires SystemInv(r, s)
    ensures SystemInv(r, DoAcknowledge(max, s, key, fault))
  {
    hide Inv, BannerInv, LedgerInv;
    if At(s, key, Revoked) {
      assert AttemptInv(s, key);
      var after := DoAcknowledge(max, s, key, fault);
      if fault.LostBefore? { AttemptKeeps(r, s, key, after); }
      else { StatusKeeps(r, s, key, Delivered, s.db.outbox[key].attempts, after); }
    }
  }

  lemma DropKeepsLedger(s: System, v: Version, after: map<EventKey, Event>)
    requires LedgerInv(s.db.outbox, s.granted, s.revoked, s.dropped) && GrantInv(s.db.page.live, s.db.outbox)
    requires PublishKey(v) in s.db.outbox && LiveEvent(s.db.outbox[PublishKey(v)])
    requires after == s.db.outbox[PublishKey(v) := s.db.outbox[PublishKey(v)].(status := FailedEvent)]
    ensures LedgerInv(after, s.granted, s.revoked, s.dropped + {v})
  {
    forall g ensures DeliveredAt(after, g) == DeliveredAt(s.db.outbox, g) && FailedAt(after, g) == (FailedAt(s.db.outbox, g) || g == v) {}
  }

  lemma DropKeeps(r: Rules, s: System, v: Version)
    requires SystemInv(r, s) && At(s, PublishKey(v), Settling(ToFail)) && FailPublication(s.db, v).Ok?
    ensures SystemInv(r, End(s.(db := FailPublication(s.db, v).value, dropped := s.dropped + {v}), PublishKey(v)))
  {
    hide Inv, BannerInv, LedgerInv, GrantInv, FailPublication;
    assert AttemptInv(s, PublishKey(v));
    var db := FailPublication(s.db, v).value;
    FailPublicationKeeps(r, s.db, v);
    FailureKeepsBanner(s.db, v);
    FailedOutbox(s.db, v);
    InvParts(r, s.db);
    DropKeepsLedger(s, v, db.outbox);
    UndisturbedKeep(s, End(s.(db := db, dropped := s.dropped + {v}), PublishKey(v)), PublishKey(v));
  }

  lemma SettleKeeps(r: Rules, s: System, key: EventKey, fault: Fault)
    requires SystemInv(r, s)
    ensures SystemInv(r, DoSettle(s, key, fault))
  {
    hide Inv, BannerInv, LedgerInv, FailPublication;
    if key in s.attempts && s.attempts[key].phase.Settling? && key in s.db.outbox {
      assert AttemptInv(s, key);
      var after := DoSettle(s, key, fault);
      var event := s.db.outbox[key];
      var verdict := s.attempts[key].phase.verdict;
      if fault.LostBefore? || (!verdict.ToFail? && !event.status.Processing?) || (verdict.ToFail? && key.PublishKey? && FailPublication(s.db, key.version).Err?) {
        AttemptKeeps(r, s, key, after);
      } else if verdict.ToFail? {
        if key.PublishKey? { DropKeeps(r, s, key.version); }
        else { StatusKeeps(r, s, key, FailedEvent, event.attempts, after); }
      } else {
        StatusKeeps(r, s, key, Waiting, after.db.outbox[key].attempts, after);
      }
    }
  }

  lemma NextKeeps(r: Rules, max: nat, s: System, step: Step)
    requires SystemInv(r, s)
    ensures SystemInv(r, Next(r, max, s, step))
  {
    hide SystemInv, Apply, DoClaim, DoGetAsset, DoCreateGrant, DoComplete, DoConfirm, DoCompensate, DoRevokeGrant,
      DoAcknowledge, DoSettle;
    match step
    case Do(op) => if Apply(r, s.db, op).Ok? { DoKeeps(r, s, op); }
    case Claim(key) => ClaimKeeps(r, s, key);
    case GetAsset(key, reply) => GetAssetKeeps(r, max, s, key, reply);
    case CreateGrant(key, fault) => CreateGrantKeeps(r, s, key, fault);
    case Complete(key, fault) => CompleteKeeps(r, max, s, key, fault);
    case Confirm(key, answered) => ConfirmKeeps(r, s, key, answered);
    case Compensate(key, fault) => CompensateKeeps(r, s, key, fault);
    case RevokeGrant(key, fault) => RevokeGrantKeeps(r, s, key, fault);
    case Acknowledge(key, fault) => AcknowledgeKeeps(r, max, s, key, fault);
    case Settle(key, fault) => SettleKeeps(r, s, key, fault);
    case Crash(key) => AttemptKeeps(r, s, key, End(s, key));
  }

  lemma {:induction false} RunKeeps(r: Rules, max: nat, s: System, steps: seq<Step>)
    requires SystemInv(r, s)
    ensures SystemInv(r, Run(r, max, s, steps))
    decreases steps
  {
    hide SystemInv, Next;
    if steps != [] {
      NextKeeps(r, max, s, steps[0]);
      RunKeeps(r, max, Next(r, max, s, steps[0]), steps[1..]);
    }
  }

  lemma InitialHolds(r: Rules, s: System)
    requires Initial(r, s)
    ensures SystemInv(r, s)
  {
  }
}
