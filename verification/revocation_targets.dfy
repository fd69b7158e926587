/** Which asset a Home revocation is for: the one its grant was created for. */
module RevocationTargets {
  import opened ContentModel
  import opened PageGroup
  import opened PageGroupInvariants
  import opened PageGroupHistory
  import opened PublicationWorker
  import opened PublicationGuarantees

  /** The publication of version `v` asked for a grant on this asset. */
  predicate IsFor(outbox: map<EventKey, Event>, v: Version, asset: string) {
    PublishKey(v) in outbox && outbox[PublishKey(v)].payload.PublishPayload? && outbox[PublishKey(v)].payload.asset == asset
  }

  ghost predicate RevokesItsAsset(outbox: map<EventKey, Event>, key: EventKey, v: Version) {
    key in outbox ==> outbox[key].payload.RevokePayload? && IsFor(outbox, v, outbox[key].payload.asset)
  }

  ghost predicate Aims(db: Db) {
    && (db.page.live.Some? ==> IsFor(db.outbox, db.page.live.value.grant, db.page.live.value.asset))
    && (forall g :: RevokesItsAsset(db.outbox, RevokeKey(g), g))
    && (forall v, g :: RevokesItsAsset(db.outbox, CompensateKey(v, g), v))
  }

  /** Events keep their payloads; a new revocation is of the banner that was recorded, a new
      compensation of the asset of its publication; and so is a banner newly recorded. */
  ghost predicate Moves(before: Db, after: Db) {
    && (forall key | key in before.outbox :: key in after.outbox && after.outbox[key].payload == before.outbox[key].payload)
    && (forall key | key in after.outbox && key !in before.outbox && !key.PublishKey? :: after.outbox[key].payload.RevokePayload?)
    && (forall key | key in after.outbox && key !in before.outbox && key.RevokeKey? ::
          before.page.live.Some? && key.grant == before.page.live.value.grant && after.outbox[key].payload.asset == before.page.live.value.asset)
    && (forall key | key in after.outbox && key !in before.outbox && key.CompensateKey? ::
          IsFor(after.outbox, key.version, after.outbox[key].payload.asset))
    && (after.page.live.Some? ==>
          after.page.live == before.page.live || IsFor(after.outbox, after.page.live.value.grant, after.page.live.value.asset))
  }

  lemma MovesKeepAims(before: Db, after: Db)
    requires Aims(before) && Moves(before, after)
    ensures Aims(after)
  {
    forall g ensures RevokesItsAsset(after.outbox, RevokeKey(g), g) { assert RevokesItsAsset(before.outbox, RevokeKey(g), g); }
    forall v, g ensures RevokesItsAsset(after.outbox, CompensateKey(v, g), v) { assert RevokesItsAsset(before.outbox, CompensateKey(v, g), v); }
  }

  // ---------------------------------------------------------------- the transactions

  lemma RetireMoves(r: Rules, before: Db, db: Db)
    requires db.outbox == before.outbox && db.page.live == before.page.live
    ensures Moves(before, RetireBanner(r, db))
  {
  }

  lemma PublishMoves(r: Rules, db: Db, expected: Version)
    requires PublishGroup(r, db, expected).Ok?
    ensures Moves(db, PublishGroup(r, db, expected).value)
  {
    hide CaptureBaseline, Collect, InsertManifest, RetireBanner, Moves, PageReady;
    var based := CaptureBaseline(r, db).value;
    var m := Collect(r, based, expected + 1).value;
    var recorded := InsertManifest(r, based, m, ManifestPublished).value;
    BaselineGrows(r, db);
    RecordingKeepsOutbox(r, based, m, ManifestPublished);
    RecordingKeepsPage(r, based, m, ManifestPublished);
    RetireMoves(r, db, GoLive(r, recorded, m, recorded.page.live).value);
  }

  lemma RecordingKeepsPage(r: Rules, db: Db, m: Manifest, status: ManifestStatus)
    requires InsertManifest(r, db, m, status).Ok?
    ensures InsertManifest(r, db, m, status).value.page == db.page
  {
  }

  lemma WithdrawalMoves(r: Rules, db: Db, expected: Version)
    requires UnpublishGroup(r, db, expected).Ok?
    ensures Moves(db, UnpublishGroup(r, db, expected).value)
  {
    hide CaptureBaseline, InsertManifest, RetireBanner, Moves, WithdrawItems, WithdrawMembers;
    var based := CaptureBaseline(r, db).value;
    BaselineGrows(r, db);
    var m := Manifest(based.page.version, based.page.version + 1, WithdrawItems(based.children, based.childRows));
    var recorded := InsertManifest(r, based, m, ManifestUnpublished).value;
    RecordingKeepsOutbox(r, based, m, ManifestUnpublished);
    var page := RevisedPage(based.page, Unpublished, based.page.content).value;
    RetireMoves(r, db, Hide(recorded, page, m.items));
  }

  lemma StartMoves(r: Rules, db: Db, expected: Version)
    requires StartHomePublish(r, db, expected).Ok?
    ensures Moves(db, StartHomePublish(r, db, expected).value)
  {
    hide CaptureBaseline, Collect, InsertManifest, PageReady;
    var based := CaptureBaseline(r, db).value;
    var m := Collect(r, based, expected + 1).value;
    BaselineGrows(r, db);
    RecordingKeepsOutbox(r, based, m, ManifestPending);
    RecordingKeepsPage(r, based, m, ManifestPending);
  }

  lemma OperationMoves(r: Rules, db: Db, op: Op)
    requires Apply(r, db, op).Ok?
    ensures Moves(db, Apply(r, db, op).value)
  {
    hide PublishGroup, StartHomePublish, UnpublishGroup, NamedByManifest, VideoTaken, RestoreError, RestoreChildren, Moves;
    match op {
      case OpPublishGroup(expected) => PublishMoves(r, db, expected);
      case OpStartHomePublish(expected) => StartMoves(r, db, expected);
      case OpUnpublishGroup(expected) => WithdrawalMoves(r, db, expected);
      case _ => StillMoves(db, Apply(r, db, op).value);
    }
  }

  lemma StillMoves(before: Db, after: Db)
    requires after.outbox == before.outbox && after.page.live == before.page.live
    ensures Moves(before, after)
  {
  }

  lemma CompletionMoves(r: Rules, db: Db, v: Version)
    requires CompleteHomePublish(r, db, v, v).Ok? && Inv(r, db)
    ensures Moves(db, CompleteHomePublish(r, db, v, v).value)
  {
    hide Inv, CompleteHomePublish;
    CompletionIs(r, db, v);
  }

  lemma CompletionIs(r: Rules, db: Db, v: Version)
    requires CompleteHomePublish(r, db, v, v).Ok? && Inv(r, db)
    ensures var after, key := CompleteHomePublish(r, db, v, v).value, PublishKey(v);
      && key in db.outbox && db.outbox[key].payload.PublishPayload?
      && (after == db ||
            var delivered := db.outbox[key := db.outbox[key].(status := Delivered)];
            && after.page.live == Some(Banner(db.outbox[key].payload.asset, v, db.page.version))
            && after.outbox == if db.page.live.Some? && db.page.live.value.grant != v then EnqueueRevoke(delivered, db.page.live.value) else delivered)
  {
    hide LoadPending, MembersCurrent, PublishMembers, MemberRows, PageRowsOf, RevisionClash, Inv, EnqueueRevoke;
  }

  lemma FailureMoves(db: Db, v: Version)
    requires FailHomePublish(db, v, v).Ok?
    ensures Moves(db, FailHomePublish(db, v, v).value)
    ensures Moves(db, FailPublication(db, v).value)
  {
  }

  lemma StatusMoves(db: Db, key: EventKey, status: EventStatus, attempts: nat)
    requires key in db.outbox
    ensures Moves(db, SetStatus(db, key, status, attempts))
  {
  }

  // ---------------------------------------------------------------- every step

  lemma StepMoves(r: Rules, max: nat, s: System, step: Step)
    requires SystemInv(r, s)
    ensures Moves(s.db, Next(r, max, s, step).db)
  {
    hide Moves, Apply, CompleteHomePublish, FailHomePublish, FailPublication, SetStatus, SystemInv, Inv;
    SystemHoldsInv(r, s);
    StillMoves(s.db, s.db);
    match step {
      case Do(op) => if Apply(r, s.db, op).Ok? { OperationMoves(r, s.db, op); }
      case Claim(key) => if key in s.db.outbox { StatusMoves(s.db, key, Processing, s.db.outbox[key].attempts + 1); }
      case Complete(key, fault) =>
        if key.PublishKey? && CompleteHomePublish(r, s.db, key.version, key.version).Ok? { CompletionMoves(r, s.db, key.version); }
      case Compensate(key, fault) =>
        if key.PublishKey? && FailHomePublish(s.db, key.version, key.version).Ok? { FailureMoves(s.db, key.version); }
      case Acknowledge(key, fault) => if key in s.db.outbox { StatusMoves(s.db, key, Delivered, s.db.outbox[key].attempts); }
      case Settle(key, fault) => if key in s.db.outbox { SettlementMoves(s, key, fault); }
      case _ =>
    }
  }

  lemma SettlementMoves(s: System, key: EventKey, fault: Fault)
    requires key in s.db.outbox
    ensures Moves(s.db, DoSettle(s, key, fault).db)
  {
    hide Moves, FailHomePublish, FailPublication, SetStatus;
    StillMoves(s.db, s.db);
    var attempts := s.db.outbox[key].attempts;
    StatusMoves(s.db, key, Waiting, attempts);
    StatusMoves(s.db, key, Waiting, if attempts == 0 then 0 else attempts - 1);
    StatusMoves(s.db, key, FailedEvent, attempts);
    if key.PublishKey? { FailedMoves(s.db, key.version); }
  }

  lemma FailedMoves(db: Db, v: Version)
    ensures FailPublication(db, v).Ok? ==> Moves(db, FailPublication(db, v).value)
  {
  }

  lemma {:induction false} RunAims(r: Rules, max: nat, s: System, steps: seq<Step>)
    requires SystemInv(r, s) && Aims(s.db)
    ensures Aims(Run(r, max, s, steps).db)
    decreases steps
  {
    hide SystemInv, Aims, Moves, Next;
    if steps != [] {
      var next := Next(r, max, s, steps[0]);
      StepMoves(r, max, s, steps[0]);
      MovesKeepAims(s.db, next.db);
      NextKeeps(r, max, s, steps[0]);
      RunAims(r, max, next, steps[1..]);
    }
  }

  /** In every reachable state each queued revocation or compensation names the asset that the
      publication the grant was created for asked it for; and so does the recorded banner. */
  lemma RevocationsNameTheirAsset(r: Rules, max: nat, s: System, v: Version, g: Grant)
    requires Reachable(r, max, s)
    ensures RevokesItsAsset(s.db.outbox, RevokeKey(g), g)
    ensures RevokesItsAsset(s.db.outbox, CompensateKey(v, g), v)
    ensures s.db.page.live.Some? ==> IsFor(s.db.outbox, s.db.page.live.value.grant, s.db.page.live.value.asset)
  {
    var start, steps :| Initial(r, start) && s == Run(r, max, start, steps);
    assert Aims(start.db);
    hide Initial, SystemInv, Run, RevokesItsAsset, IsFor;
    InitialHolds(r, start);
    RunAims(r, max, start, steps);
  }
}
