/** What the publication protocol guarantees over whole runs: the freeze, the fate of every
    grant, and the round trip through a restore. */
module PublicationGuarantees {
  import opened ContentModel
  import opened PageGroup
  import opened PageGroupInvariants
  import opened PageGroupHistory
  import opened PublicationWorker

  ghost predicate Reachable(r: Rules, max: nat, s: System) {
    exists start, steps :: Initial(r, start) && s == Run(r, max, start, steps)
  }

  lemma ReachableHolds(r: Rules, max: nat, s: System)
    requires Reachable(r, max, s)
    ensures SystemInv(r, s)
  {
    hide SystemInv, Initial, Run;
    var start, steps :| Initial(r, start) && s == Run(r, max, start, steps);
    InitialHolds(r, start);
    RunKeeps(r, max, start, steps);
  }

  // ---------------------------------------------------------------- freeze

  /** Home publish freeze: in every reachable publishing state exactly one manifest is pending,
      it is the one for the page's version, it equals a fresh collection over the videos, its
      digest is the one in the one live publication event, and no transaction can move page or
      videos until the worker settles it. */
  lemma PublishFreeze(r: Rules, max: nat, s: System, op: Op)
    requires Reachable(r, max, s) && s.db.page.status.Publishing?
    ensures var v := s.db.page.version;
      && v in s.db.manifests
      && (forall w | w in s.db.manifests :: s.db.manifests[w].status.ManifestPending? <==> w == v)
      && s.db.manifests[v].manifest.items == CollectItems(s.db.children)
      && MembersCurrent(s.db.children, s.db.manifests[v].manifest.items)
      && (forall w | PublishKey(w) in s.db.outbox :: LiveEvent(s.db.outbox[PublishKey(w)]) <==> w == v)
      && PublishKey(v) in s.db.outbox
      && s.db.outbox[PublishKey(v)].payload == PublishPayload(s.db.page.content.banner, Some(s.db.manifests[v].sha), v)
    ensures Apply(r, s.db, op).Err?
  {
    hide Apply, Reachable, SystemInv, Inv, LoadPending, CollectItems;
    ReachableHolds(r, max, s);
    SystemHoldsInv(r, s);
    FrozenState(r, s.db);
    FrozenRejects(r, s.db, op);
  }

  lemma FrozenState(r: Rules, db: Db)
    requires Inv(r, db) && db.page.status.Publishing?
    ensures var v := db.page.version;
      && v in db.manifests
      && (forall w | w in db.manifests :: db.manifests[w].status.ManifestPending? <==> w == v)
      && db.manifests[v].manifest.items == CollectItems(db.children)
      && MembersCurrent(db.children, db.manifests[v].manifest.items)
      && (forall w | PublishKey(w) in db.outbox :: LiveEvent(db.outbox[PublishKey(w)]) <==> w == v)
      && PublishKey(v) in db.outbox
      && db.outbox[PublishKey(v)].payload == PublishPayload(db.page.content.banner, Some(db.manifests[v].sha), v)
  {
    FrozenManifest(r, db);
    CollectedIsCurrent(db.children, db.childRows);
    forall w | PublishKey(w) in db.outbox ensures PublishEventInv(db.page, db.manifests, w, db.outbox[PublishKey(w)]) {}
    hide PageInv, ChildrenInv, GrantInv, ManifestsInv;
  }

  /** No attempt that reaches completion finds its publication superseded. */
  lemma NoCompletionIsStale(r: Rules, max: nat, s: System, v: Version)
    requires Reachable(r, max, s) && At(s, PublishKey(v), Granted)
    ensures s.db.page.status.Publishing? && s.db.page.version == v
    ensures CompleteHomePublish(r, s.db, v, v).Ok?
  {
    ReachableHolds(r, max, s);
    assert AttemptInv(s, PublishKey(v));
    assert PublishEventInv(s.db.page, s.db.manifests, v, s.db.outbox[PublishKey(v)]);
    CompletionIsNeverStale(r, s.db);
  }

  /** Status and public rows agree: an entry is published exactly when its rows carry its
      current version, and no row is newer than its entry. */
  lemma StatusMatchesRows(r: Rules, max: nat, s: System, id: Id)
    requires Reachable(r, max, s)
    ensures s.db.page.status.Published? <==> CompleteAt(s.db.pageRows, s.db.page.version)
    ensures forall l | l in s.db.pageRows :: s.db.pageRows[l].version <= s.db.page.version
    ensures id in s.db.childRows ==> id in s.db.children
    ensures id in s.db.children ==>
              var rows := RowsFor(s.db.childRows, id);
              && (s.db.children[id].status.Published? <==> CompleteAt(rows, s.db.children[id].version))
              && forall l | l in rows :: rows[l].version <= s.db.children[id].version
  {
    ReachableHolds(r, max, s);
  }

  // ---------------------------------------------------------------- grants

  /** Every public Home row on the second template shows the URL of an asset whose grant was
      created, is not revoked, and is nobody's to revoke. */
  lemma LiveBannerIsGranted(r: Rules, max: nat, s: System, l: Locale)
    requires Reachable(r, max, s) && l in s.db.pageRows && s.db.pageRows[l].payload.PagePayload?
    requires s.db.pageRows[l].payload.template.HomeV2?
    ensures s.db.page.live.Some?
    ensures var banner := s.db.page.live.value;
      && s.db.pageRows[l].payload.bannerUrl == r.publicUrl(banner.asset)
      && s.db.pageRows[l].version == banner.version
      && banner.grant in s.granted
      && banner.grant !in s.revoked
      && !RevokeTarget(s.db.outbox, banner.grant)
  {
    hide Reachable, SystemInv, Inv;
    ReachableHolds(r, max, s);
    SystemHoldsInv(r, s);
    LiveBannerShows(r, s, l);
    RecordedIsGranted(r, s, s.db.page.live.value.grant);
  }

  lemma LiveBannerShows(r: Rules, s: System, l: Locale)
    requires SystemInv(r, s) && l in s.db.pageRows && s.db.pageRows[l].payload.PagePayload?
    requires s.db.pageRows[l].payload.template.HomeV2?
    ensures s.db.page.live.Some?
    ensures var banner := s.db.page.live.value;
      s.db.pageRows[l].payload.bannerUrl == r.publicUrl(banner.asset) && s.db.pageRows[l].version == banner.version
  {
    hide LedgerInv, AttemptInv, ChildrenInv, ManifestsInv, EventsInv, GrantInv, Frozen;
  }

  lemma RecordedIsGranted(r: Rules, s: System, g: Grant)
    requires SystemInv(r, s) && Records(s.db.page.live, g)
    ensures g in s.granted && g !in s.revoked && !RevokeTarget(s.db.outbox, g)
  {
    hide BannerInv, AttemptInv, PageInv, ChildrenInv, ManifestsInv, EventsInv, Frozen;
  }

  predicate GrantQueued(s: System, g: Grant) {
    RevokeTarget(s.db.outbox, g)
  }

  predicate GrantPending(s: System, g: Grant) {
    PublishKey(g) in s.db.outbox && LiveEvent(s.db.outbox[PublishKey(g)])
  }

  predicate Leaked(s: System, g: Grant) {
    g in s.granted && !Records(s.db.page.live, g) && !GrantQueued(s, g) && !GrantPending(s, g)
  }

  /** Every grant ever created is in exactly one place: recorded on the page, queued for
      revocation, held by a publication still to be settled, or leaked. */
  lemma GrantHasOnePlace(r: Rules, max: nat, s: System, g: Grant)
    requires Reachable(r, max, s) && g in s.granted
    ensures Records(s.db.page.live, g) ==> !GrantQueued(s, g) && !GrantPending(s, g)
    ensures GrantQueued(s, g) ==> !GrantPending(s, g)
    ensures Records(s.db.page.live, g) || GrantQueued(s, g) || GrantPending(s, g) || Leaked(s, g)
  {
    hide Reachable, SystemInv;
    ReachableHolds(r, max, s);
    OnePlace(r, s, g);
  }

  lemma OnePlace(r: Rules, s: System, g: Grant)
    requires SystemInv(r, s)
    ensures Records(s.db.page.live, g) ==> !GrantQueued(s, g) && !GrantPending(s, g)
    ensures GrantQueued(s, g) ==> !GrantPending(s, g)
  {
    hide PageInv, ChildrenInv, ManifestsInv, EventsInv, Frozen, BannerInv, LedgerInv, AttemptInv;
  }

  /** What leaks a grant: an attempt that does not hold it gives its publication up, while the
      grant exists because an earlier attempt, or a call whose reply was lost, created it. */
  predicate LeakStep(s: System, step: Step, g: Grant) {
    && step.Settle? && step.key == PublishKey(g) && !step.fault.LostBefore?
    && At(s, step.key, Settling(ToFail))
    && g in s.granted
  }

  /** A step leaks a grant exactly when it is such a step. */
  lemma LeaksExactlyWhenGivenUp(r: Rules, max: nat, s: System, step: Step, g: Grant)
    requires Reachable(r, max, s)
    ensures !Leaked(s, g) && Leaked(Next(r, max, s, step), g) <==> LeakStep(s, step, g)
  {
    hide Leaked, LeakStep, Next, Reachable;
    ReachableHolds(r, max, s);
    NextKeeps(r, max, s, step);
    DroppedIsLeaked(r, s, g);
    DroppedIsLeaked(r, Next(r, max, s, step), g);
    DropsExactly(r, max, s, step, g);
  }

  /** The history variable records what leaked, once the grant exists. */
  lemma DroppedIsLeaked(r: Rules, s: System, g: Grant)
    requires SystemInv(r, s)
    ensures Leaked(s, g) <==> g in s.granted && g in s.dropped
  {
  }

  lemma DropsExactly(r: Rules, max: nat, s: System, step: Step, g: Grant)
    requires SystemInv(r, s)
    ensures var after := Next(r, max, s, step);
      (g in after.granted && g in after.dropped) && !(g in s.granted && g in s.dropped) <==> LeakStep(s, step, g)
  {
    hide Apply, DoComplete, DoCompensate, Inv, BannerInv;
    match step
    case CreateGrant(key, fault) => if key in s.attempts { assert AttemptInv(s, key); }
    case Complete(key, fault) => CompleteDropsNothing(r, max, s, key, fault);
    case Compensate(key, fault) => CompensateDropsNothing(s, key, fault);
    case Settle(key, fault) => SettleDrops(r, s, key, fault, g);
    case _ =>
  }

  lemma CompleteDropsNothing(r: Rules, max: nat, s: System, key: EventKey, fault: Fault)
    ensures var after := DoComplete(r, max, s, key, fault); after.granted == s.granted && after.dropped == s.dropped
  {
    hide CompleteHomePublish;
  }

  lemma CompensateDropsNothing(s: System, key: EventKey, fault: Fault)
    ensures var after := DoCompensate(s, key, fault); after.granted == s.granted && after.dropped == s.dropped
  {
    hide FailHomePublish;
  }

  lemma SettleDrops(r: Rules, s: System, key: EventKey, fault: Fault, g: Grant)
    requires SystemInv(r, s)
    ensures var after := DoSettle(s, key, fault);
      (g in after.granted && g in after.dropped) && !(g in s.granted && g in s.dropped) <==> LeakStep(s, Settle(key, fault), g)
  {
    hide FailPublication, Inv, BannerInv, LedgerInv;
    if key in s.attempts { assert AttemptInv(s, key); }
    if key.PublishKey? && At(s, key, Settling(ToFail)) {
      LiveCanFail(r, s.db, key.version);
      LiveIsNotDropped(s, key.version);
    }
  }

  lemma LiveIsNotDropped(s: System, v: Version)
    requires LedgerInv(s.db.outbox, s.granted, s.revoked, s.dropped)
    requires PublishKey(v) in s.db.outbox && LiveEvent(s.db.outbox[PublishKey(v)])
    ensures v !in s.dropped
  {
  }

  lemma LiveCanFail(r: Rules, db: Db, v: Version)
    requires Inv(r, db) && PublishKey(v) in db.outbox && LiveEvent(db.outbox[PublishKey(v)])
    ensures FailPublication(db, v).Ok?
  {
    assert PublishEventInv(db.page, db.manifests, v, db.outbox[PublishKey(v)]);
  }

  /** A leaked grant stays leaked. */
  lemma LeaksAreForGood(r: Rules, max: nat, s: System, step: Step, g: Grant)
    requires Reachable(r, max, s) && Leaked(s, g)
    ensures Leaked(Next(r, max, s, step), g)
  {
    hide Leaked, Next, Reachable;
    ReachableHolds(r, max, s);
    NextKeeps(r, max, s, step);
    DroppedIsLeaked(r, s, g);
    DroppedIsLeaked(r, Next(r, max, s, step), g);
    DropsAreForGood(r, max, s, step, g);
  }

  lemma DropsAreForGood(r: Rules, max: nat, s: System, step: Step, g: Grant)
    requires g in s.granted && g in s.dropped
    ensures var after := Next(r, max, s, step); g in after.granted && g in after.dropped
  {
    hide Apply, DoComplete, DoCompensate;
    match step
    case Complete(key, fault) => CompleteDropsNothing(r, max, s, key, fault);
    case Compensate(key, fault) => CompensateDropsNothing(s, key, fault);
    case _ =>
  }

  /** Over whole runs: a grant is leaked exactly when some step of the run leaked it. */
  lemma {:induction false} LeakedExactly(r: Rules, max: nat, start: System, steps: seq<Step>, g: Grant)
    requires Initial(r, start)
    ensures Leaked(Run(r, max, start, steps), g) <==>
            exists i | 0 <= i < |steps| :: LeakStep(Run(r, max, start, steps[..i]), steps[i], g)
    decreases |steps|
  {
    hide Leaked, LeakStep, Next, Initial;
    if steps == [] {
      InitialHolds(r, start);
      DroppedIsLeaked(r, start, g);
      NothingGranted(r, start);
    } else {
      var n := |steps| - 1;
      var before := steps[..n];
      LeakedExactly(r, max, start, before, g);
      assert steps == before + [steps[n]];
      RunThenNext(r, max, start, before, steps[n]);
      var s := Run(r, max, start, before);
      assert Reachable(r, max, s);
      LeaksExactlyWhenGivenUp(r, max, s, steps[n], g);
      if Leaked(s, g) { LeaksAreForGood(r, max, s, steps[n], g); }
      forall i | 0 <= i < n ensures before[..i] == steps[..i] && before[i] == steps[i] {}
      if exists i | 0 <= i < |steps| :: LeakStep(Run(r, max, start, steps[..i]), steps[i], g) {
        var i :| 0 <= i < |steps| && LeakStep(Run(r, max, start, steps[..i]), steps[i], g);
        if i < n { assert LeakStep(Run(r, max, start, before[..i]), before[i], g); }
      }
      if Leaked(s, g) {
        var i :| 0 <= i < n && LeakStep(Run(r, max, start, before[..i]), before[i], g);
        assert LeakStep(Run(r, max, start, steps[..i]), steps[i], g);
      }
    }
  }

  lemma NothingGranted(r: Rules, start: System)
    requires Initial(r, start)
    ensures start.granted == {}
  {
  }

  /** The three ways an attempt that obtained its grant can end. */
  predicate EndsDelivered(s: System, v: Version) {
    DeliveredAt(s.db.outbox, v) && (Records(s.db.page.live, v) || RevokeKey(v) in s.db.outbox)
  }

  predicate EndsPending(s: System, v: Version) {
    GrantPending(s, v) && v in s.granted
  }

  predicate EndsCompensated(s: System, v: Version) {
    FailedAt(s.db.outbox, v) && CompensateKey(v, v) in s.db.outbox
  }

  /** Whatever errors, lost replies or crashes hit it, an attempt that obtained its grant ends
      in exactly one of three states: delivered with the grant recorded (or since replaced and
      queued for revocation), still pending under the same grant, or failed with a revocation
      of the grant queued. */
  lemma HoldingAttemptOutcome(r: Rules, max: nat, s: System, step: Step, v: Version)
    requires Reachable(r, max, s)
    requires PublishKey(v) in s.attempts && s.attempts[PublishKey(v)].holds
    requires PublishKey(v) !in Next(r, max, s, step).attempts
    ensures var after := Next(r, max, s, step);
      && (EndsDelivered(after, v) || EndsPending(after, v) || EndsCompensated(after, v))
      && !(EndsDelivered(after, v) && EndsPending(after, v))
      && !(EndsDelivered(after, v) && EndsCompensated(after, v))
      && !(EndsPending(after, v) && EndsCompensated(after, v))
  {
    hide Reachable, Next, SystemInv, Inv;
    ReachableHolds(r, max, s);
    HoldersAreInOrder(r, s, PublishKey(v));
    NextKeeps(r, max, s, step);
    EndingDropsNothing(r, max, s, step, v);
    CreatedEnds(r, Next(r, max, s, step), v);
  }

  lemma HoldersAreInOrder(r: Rules, s: System, key: EventKey)
    requires SystemInv(r, s)
    ensures AttemptInv(s, key)
  {
    hide Inv, BannerInv, LedgerInv;
  }

  /** A grant that was created and not dropped has one of the three fates. */
  lemma CreatedEnds(r: Rules, s: System, v: Version)
    requires SystemInv(r, s) && v in s.granted && v !in s.dropped
    ensures EndsDelivered(s, v) || EndsPending(s, v) || EndsCompensated(s, v)
  {
    hide PageInv, ChildrenInv, ManifestsInv, EventsInv, Frozen, BannerInv, AttemptInv;
  }

  lemma EndingDropsNothing(r: Rules, max: nat, s: System, step: Step, v: Version)
    requires PublishKey(v) in s.attempts && s.attempts[PublishKey(v)].holds
    requires AttemptInv(s, PublishKey(v)) && PublishKey(v) !in Next(r, max, s, step).attempts
    ensures v !in Next(r, max, s, step).dropped && v in Next(r, max, s, step).granted
  {
  }

  /** Recorded-grant conservation: a grant leaves the page only with its revocation queued. */
  lemma RecordedGrantIsHandedOver(r: Rules, max: nat, s: System, step: Step, g: Grant)
    requires Reachable(r, max, s)
    requires Records(s.db.page.live, g) && !Records(Next(r, max, s, step).db.page.live, g)
    ensures RevokeKey(g) in Next(r, max, s, step).db.outbox
  {
    ReachableHolds(r, max, s);
    NextKeeps(r, max, s, step);
    DeliveredStays(r, max, s, step, g);
  }

  lemma DeliveredStays(r: Rules, max: nat, s: System, step: Step, g: Grant)
    requires (forall key | key in s.attempts :: AttemptInv(s, key)) && DeliveredAt(s.db.outbox, g)
    ensures DeliveredAt(Next(r, max, s, step).db.outbox, g)
  {
    hide Apply, DoComplete, DoCompensate, DoSettle, DoAcknowledge, AttemptInv;
    match step
    case Acknowledge(key, fault) => DeliveredStaysOnAcknowledge(max, s, key, fault, g);
    case Do(op) => if Apply(r, s.db, op).Ok? { ApplyAddsEvents(r, s.db, op); }
    case Complete(key, fault) => DeliveredStaysOnComplete(r, max, s, key, fault, g);
    case Compensate(key, fault) => DeliveredStaysOnCompensate(s, key, fault, g);
    case Settle(key, fault) => DeliveredStaysOnSettle(s, key, fault, g);
    case _ =>
  }

  lemma DeliveredStaysOnAcknowledge(max: nat, s: System, key: EventKey, fault: Fault, g: Grant)
    requires DeliveredAt(s.db.outbox, g)
    ensures DeliveredAt(DoAcknowledge(max, s, key, fault).db.outbox, g)
  {
  }

  lemma DeliveredStaysOnCompensate(s: System, key: EventKey, fault: Fault, g: Grant)
    requires (key in s.attempts ==> AttemptInv(s, key)) && DeliveredAt(s.db.outbox, g)
    ensures DeliveredAt(DoCompensate(s, key, fault).db.outbox, g)
  {
  }

  lemma DeliveredStaysOnComplete(r: Rules, max: nat, s: System, key: EventKey, fault: Fault, g: Grant)
    requires DeliveredAt(s.db.outbox, g)
    ensures DeliveredAt(DoComplete(r, max, s, key, fault).db.outbox, g)
  {
    if key.PublishKey? && CompleteHomePublish(r, s.db, key.version, key.version).Ok? && !DeliveredAt(s.db.outbox, key.version) {
      CompletionOutbox(r, s.db, key.version);
    }
  }

  lemma DeliveredStaysOnSettle(s: System, key: EventKey, fault: Fault, g: Grant)
    requires (key in s.attempts ==> AttemptInv(s, key)) && DeliveredAt(s.db.outbox, g)
    ensures DeliveredAt(DoSettle(s, key, fault).db.outbox, g)
  {
    hide FailPublication;
    if key.PublishKey? && FailPublication(s.db, key.version).Ok? { FailedOutbox(s.db, key.version); }
  }

  /** A revocation is carried out only for a grant queued for it, and its event ends, delivered
      or failed, only once the grant is revoked. */
  lemma RevocationsAreCarriedOut(r: Rules, max: nat, s: System, key: EventKey)
    requires Reachable(r, max, s) && key in s.db.outbox && !key.PublishKey? && !LiveEvent(s.db.outbox[key])
    ensures key.grant in s.revoked
    ensures forall g | g in s.revoked :: GrantQueued(s, g) && g in s.granted
  {
    ReachableHolds(r, max, s);
  }

  // ---------------------------------------------------------------- the leak is real

  lemma {:induction false} RunThenNext(r: Rules, max: nat, s: System, steps: seq<Step>, step: Step)
    ensures Run(r, max, s, steps + [step]) == Next(r, max, Run(r, max, s, steps), step)
    decreases steps
  {
    hide Next;
    if steps == [] {
      assert [step][1..] == [];
    } else {
      assert (steps + [step])[0] == steps[0] && (steps + [step])[1..] == steps[1..] + [step];
      RunThenNext(r, max, Next(r, max, s, steps[0]), steps[1..], step);
    }
  }

  lemma NextIsReachable(r: Rules, max: nat, s: System, step: Step)
    requires Reachable(r, max, s)
    ensures Reachable(r, max, Next(r, max, s, step))
  {
    hide Initial, Next, Run;
    var start, steps :| Initial(r, start) && s == Run(r, max, start, steps);
    RunThenNext(r, max, start, steps, step);
  }

  /** A fresh Home on the second template, with a banner and no videos. */
  function FreshHome(): System {
    var content := PageContent(HomeV2, true, "banner", "", map[ZhHant := "a", ZhHans := "b", En := "c", Ja := "d", Ko := "e"]);
    System(Db(Page(1, Draft, content, None, map[1 := content]), map[], map[], map[], map[], map[]), {}, {}, map[], {})
  }

  /** Publishing states are reachable, so nothing here is vacuous. */
  lemma PublishingIsReachable(r: Rules, max: nat) returns (s: System)
    requires r.kind.Home? && r.pageOk(FreshHome().db.page.content)
    ensures Reachable(r, max, s) && s.db.page.status.Publishing? && s.attempts == map[]
  {
    var home := FreshHome();
    FreshHomeIsReachable(r, max);
    FreshHomeStarts(r, max);
    NextIsReachable(r, max, home, Do(OpStartHomePublish(1)));
    hide Next, Reachable;
    s := Next(r, max, home, Do(OpStartHomePublish(1)));
  }

  lemma FreshHomeIsReachable(r: Rules, max: nat)
    requires r.kind.Home?
    ensures Reachable(r, max, FreshHome())
  {
    assert Run(r, max, FreshHome(), []) == FreshHome();
    assert Initial(r, FreshHome());
  }

  lemma FreshHomeStarts(r: Rules, max: nat)
    requires r.kind.Home? && r.pageOk(FreshHome().db.page.content)
    ensures var s := Next(r, max, FreshHome(), Do(OpStartHomePublish(1))); s.db.page.status.Publishing? && s.attempts == map[]
  {
    assert StartHomePublish(r, FreshHome().db, 1).Ok?;
  }

  lemma PublishingHasLiveEvent(r: Rules, max: nat, s: System)
    requires Reachable(r, max, s) && s.db.page.status.Publishing?
    ensures var key := PublishKey(s.db.page.version); key in s.db.outbox && LiveEvent(s.db.outbox[key])
  {
    ReachableHolds(r, max, s);
  }

  function AfterSteps(r: Rules, max: nat, s: System, first: Step, second: Step, third: Step): System {
    Next(r, max, Next(r, max, Next(r, max, s, first), second), third)
  }

  lemma ThreeStepsAreReachable(r: Rules, max: nat, s: System, first: Step, second: Step, third: Step)
    requires Reachable(r, max, s)
    ensures Reachable(r, max, AfterSteps(r, max, s, first, second, third))
  {
    NextIsReachable(r, max, s, first);
    NextIsReachable(r, max, Next(r, max, s, first), second);
    NextIsReachable(r, max, Next(r, max, Next(r, max, s, first), second), third);
  }

  /** The grant call takes effect but reports an error, and the event goes back to waiting. */
  function LoseGrant(r: Rules, max: nat, s: System, key: EventKey): System {
    AfterSteps(r, max, s, Claim(key), CreateGrant(key, LostAfter), Settle(key, Fine))
  }

  /** On the next claim the asset turns out unusable, and the event fails. */
  function RejectAsset(r: Rules, max: nat, s: System, key: EventKey): System {
    AfterSteps(r, max, s, Claim(key), GetAsset(key, Terminal), Settle(key, Fine))
  }

  lemma LoseGrantComputes(r: Rules, max: nat, s: System, v: Version)
    requires PublishKey(v) in s.db.outbox && LiveEvent(s.db.outbox[PublishKey(v)]) && PublishKey(v) !in s.attempts
    ensures var after := LoseGrant(r, max, s, PublishKey(v));
      && after.db.page == s.db.page
      && v in after.granted
      && PublishKey(v) !in after.attempts
  {
  }

  lemma RejectAssetComputes(r: Rules, max: nat, s: System, v: Version)
    requires PublishKey(v) in s.db.outbox && LiveEvent(s.db.outbox[PublishKey(v)]) && PublishKey(v) !in s.attempts
    requires s.db.outbox[PublishKey(v)].payload.PublishPayload? && v in s.granted
    ensures var after := RejectAsset(r, max, s, PublishKey(v)); v in after.granted && v in after.dropped
  {
  }

  lemma PublishEventHasPayload(r: Rules, max: nat, s: System, v: Version)
    requires Reachable(r, max, s) && PublishKey(v) in s.db.outbox
    ensures s.db.outbox[PublishKey(v)].payload.PublishPayload?
  {
    ReachableHolds(r, max, s);
  }

  /** The leak is real: from every publishing state without an attempt under way, a lost reply
      and an asset gone bad lead to a grant nobody is left to revoke. */
  lemma LeakHappens(r: Rules, max: nat, s: System)
    requires Reachable(r, max, s) && s.db.page.status.Publishing? && PublishKey(s.db.page.version) !in s.attempts
    ensures var key := PublishKey(s.db.page.version);
      var after := RejectAsset(r, max, LoseGrant(r, max, s, key), key);
      Reachable(r, max, after) && Leaked(after, s.db.page.version)
  {
    var v := s.db.page.version;
    var key := PublishKey(v);
    var waiting := LoseGrant(r, max, s, key);
    PublishingHasLiveEvent(r, max, s);
    LoseGrantComputes(r, max, s, v);
    ThreeStepsAreReachable(r, max, s, Claim(key), CreateGrant(key, LostAfter), Settle(key, Fine));
    PublishingHasLiveEvent(r, max, waiting);
    PublishEventHasPayload(r, max, waiting, v);
    RejectAssetComputes(r, max, waiting, v);
    ThreeStepsAreReachable(r, max, waiting, Claim(key), GetAsset(key, Terminal), Settle(key, Fine));
    ReachableHolds(r, max, RejectAsset(r, max, waiting, key));
    DroppedIsLeaked(r, RejectAsset(r, max, waiting, key), v);
  }

  // ---------------------------------------------------------------- history

  lemma CompleteDb(r: Rules, max: nat, s: System, key: EventKey, fault: Fault)
    ensures var after := DoComplete(r, max, s, key, fault).db;
      || after == s.db
      || (key.PublishKey? && At(s, key, Granted) && CompleteHomePublish(r, s.db, key.version, key.version) == Ok(after))
  {
    hide CompleteHomePublish;
  }

  ghost predicate FailsPublication(before: Db, after: Db, v: Version) {
    FailPublication(before, v).Ok? && after == FailPublication(before, v).value.(outbox := after.outbox)
  }

  lemma CompensateDb(s: System, key: EventKey, fault: Fault)
    ensures var after := DoCompensate(s, key, fault).db;
      after == s.db || (key.PublishKey? && FailsPublication(s.db, after, key.version))
  {
    hide FailPublication;
  }

  lemma SettleDb(s: System, key: EventKey, fault: Fault)
    ensures var after := DoSettle(s, key, fault).db;
      after == s.db.(outbox := after.outbox) || (key.PublishKey? && FailsPublication(s.db, after, key.version))
  {
    hide FailPublication;
    if key in s.attempts && s.attempts[key].phase.Settling? && s.attempts[key].phase.verdict.ToFail? && key.PublishKey? {
      var after := DoSettle(s, key, fault).db;
      assert after == s.db || FailPublication(s.db, key.version) == Ok(after);
    }
  }

  /** The four things a step can do to the tables. */
  ghost predicate StepDb(r: Rules, s: System, step: Step, after: Db) {
    || after == s.db.(outbox := after.outbox)
    || (step.Do? && Apply(r, s.db, step.op) == Ok(after))
    || (step.Complete? && step.key.PublishKey? && At(s, step.key, Granted) &&
        CompleteHomePublish(r, s.db, step.key.version, step.key.version) == Ok(after))
    || ((step.Compensate? || step.Settle?) && step.key.PublishKey? && FailsPublication(s.db, after, step.key.version))
  }

  lemma NextDb(r: Rules, max: nat, s: System, step: Step)
    ensures StepDb(r, s, step, Next(r, max, s, step).db)
  {
    hide Apply, DoComplete, DoCompensate, DoSettle, FailsPublication, CompleteHomePublish;
    match step
    case Do(op) =>
    case Complete(key, fault) => CompleteDb(r, max, s, key, fault);
    case Compensate(key, fault) => CompensateDb(s, key, fault);
    case Settle(key, fault) => SettleDb(s, key, fault);
    case _ =>
  }

  lemma NextGrows(r: Rules, max: nat, s: System, step: Step)
    requires Inv(r, s.db)
    ensures Grows(s.db, Next(r, max, s, step).db)
  {
    NextDb(r, max, s, step);
    if step.Do? && Apply(r, s.db, step.op).Ok? { ApplyGrows(r, s.db, step.op); }
    if step.Complete? && step.key.PublishKey? && CompleteHomePublish(r, s.db, step.key.version, step.key.version).Ok? {
      CompleteHomePublishGrows(r, s.db, step.key.version);
    }
    if (step.Compensate? || step.Settle?) && step.key.PublishKey? && FailsPublication(s.db, Next(r, max, s, step).db, step.key.version) {
      FailPublicationGrows(s.db, step.key.version);
    }
  }

  lemma {:induction false} RunGrows(r: Rules, max: nat, s: System, steps: seq<Step>)
    requires SystemInv(r, s)
    ensures Grows(s.db, Run(r, max, s, steps).db)
    decreases steps
  {
    hide SystemInv, Next, Inv, NamedByManifest;
    if steps != [] {
      var next := Next(r, max, s, steps[0]);
      SystemHoldsInv(r, s);
      NextGrows(r, max, s, steps[0]);
      NextKeeps(r, max, s, steps[0]);
      RunGrows(r, max, next, steps[1..]);
      GrowsTransitive(s.db, next.db, Run(r, max, next, steps[1..]).db);
    }
  }

  /** A child named in any manifest is never hard-deleted, in any run. */
  lemma NamedChildrenPersist(r: Rules, max: nat, s: System, steps: seq<Step>, id: Id)
    requires Reachable(r, max, s) && NamedByManifest(s.db.manifests, id)
    ensures id in s.db.children && id in Run(r, max, s, steps).db.children
  {
    ReachableHolds(r, max, s);
    NamedChildrenExist(r, s.db, id);
    RunGrows(r, max, s, steps);
  }

  /** Past publishing at version `w`: whatever happens next, that publication is over. */
  ghost predicate Over(db: Db, w: Version) {
    w <= db.page.version && !(db.page.status.Publishing? && db.page.version == w)
  }

  ghost predicate SameGroup(a: Db, b: Db) {
    a.page == b.page && a.children == b.children && a.pageRows == b.pageRows && a.childRows == b.childRows
  }

  /** One step from a publishing state leaves page and videos alone, or ends the publication. */
  lemma NextFrozen(r: Rules, max: nat, s: System, step: Step)
    requires SystemInv(r, s) && s.db.page.status.Publishing?
    ensures var after := Next(r, max, s, step);
      SameGroup(s.db, after.db) || Over(after.db, s.db.page.version)
  {
    hide Next, Inv, SystemInv, Apply, CompleteHomePublish, FailPublication;
    SystemHoldsInv(r, s);
    NextDb(r, max, s, step);
    if step.Do? { FrozenRejects(r, s.db, step.op); }
    if step.Complete? && step.key.PublishKey? && CompleteHomePublish(r, s.db, step.key.version, step.key.version).Ok? {
      CompletionEnds(r, s.db, step.key.version);
    }
    if (step.Compensate? || step.Settle?) && step.key.PublishKey? && FailPublication(s.db, step.key.version).Ok? {
      FailureEnds(r, s.db, step.key.version);
    }
  }

  lemma FailureEnds(r: Rules, db: Db, v: Version)
    requires Inv(r, db) && FailPublication(db, v).Ok?
    ensures var after := FailPublication(db, v).value;
      && after.children == db.children && after.pageRows == db.pageRows && after.childRows == db.childRows
      && after.page.version == db.page.version
      && (after.page == db.page || after.page.status.PublishFailed?)
  {
  }

  lemma CompletionEnds(r: Rules, db: Db, v: Version)
    requires CompleteHomePublish(r, db, v, v).Ok?
    ensures var after := CompleteHomePublish(r, db, v, v).value;
      after == db || (after.page.status.Published? && after.page.version == db.page.version)
  {
  }

  lemma FrozenRejects(r: Rules, db: Db, op: Op)
    requires db.page.status.Publishing?
    ensures Apply(r, db, op).Err?
  {
  }

  lemma NextStaysOver(r: Rules, max: nat, s: System, step: Step, w: Version)
    requires SystemInv(r, s) && Over(s.db, w)
    ensures Over(Next(r, max, s, step).db, w)
  {
    SystemHoldsInv(r, s);
    NextGrows(r, max, s, step);
    NextDb(r, max, s, step);
    hide Next, Inv, SystemInv, Apply, CompleteHomePublish, FailPublication;
    var after := Next(r, max, s, step).db;
    if step.Do? && Apply(r, s.db, step.op) == Ok(after) && after.page.status.Publishing? { StartsAtANewVersion(r, s.db, step.op); }
    if step.Complete? && step.key.PublishKey? && CompleteHomePublish(r, s.db, step.key.version, step.key.version) == Ok(after) {
      CompletionEnds(r, s.db, step.key.version);
    }
    if (step.Compensate? || step.Settle?) && step.key.PublishKey? && FailsPublication(s.db, after, step.key.version) {
      FailureKeepsOver(s.db, step.key.version, w);
    }
  }

  lemma SystemHoldsInv(r: Rules, s: System)
    requires SystemInv(r, s)
    ensures Inv(r, s.db)
  {
  }

  lemma FailureKeepsOver(db: Db, v: Version, w: Version)
    requires FailPublication(db, v).Ok? && Over(db, w)
    ensures Over(FailPublication(db, v).value, w)
  {
  }

  lemma StartsAtANewVersion(r: Rules, db: Db, op: Op)
    requires Apply(r, db, op).Ok? && Apply(r, db, op).value.page.status.Publishing?
    ensures db.page.version < Apply(r, db, op).value.page.version
  {
    hide StartHomePublish, PublishGroup, UnpublishGroup;
    match op
    case OpStartHomePublish(expected) => StartKeepsContent(r, db, expected);
    case OpPublishGroup(expected) => PublishGroupEnds(r, db, expected);
    case OpUnpublishGroup(expected) => UnpublishGroupEnds(r, db, expected);
    case _ =>
  }

  lemma PublishGroupEnds(r: Rules, db: Db, expected: Version)
    requires PublishGroup(r, db, expected).Ok?
    ensures PublishGroup(r, db, expected).value.page.status.Published?
  {
    hide CaptureBaseline, CollectItems, PublishGroup;
    PublishGroupSteps(r, db, expected);
  }

  lemma UnpublishGroupEnds(r: Rules, db: Db, expected: Version)
    requires UnpublishGroup(r, db, expected).Ok?
    ensures UnpublishGroup(r, db, expected).value.page.status.Unpublished?
  {
    hide CaptureBaseline, WithdrawItems, WithdrawMembers;
  }

  /** While the publication of `w` is under way, any run leaves page and videos alone. */
  lemma {:induction false} RunFrozen(r: Rules, max: nat, s: System, steps: seq<Step>, w: Version)
    requires SystemInv(r, s)
    requires s.db.page.status.Publishing? && s.db.page.version == w
    ensures SameGroup(s.db, Run(r, max, s, steps).db) || Over(Run(r, max, s, steps).db, w)
    decreases steps
  {
    if steps != [] {
      var next := Next(r, max, s, steps[0]);
      NextKeeps(r, max, s, steps[0]);
      NextFrozen(r, max, s, steps[0]);
      if SameGroup(s.db, next.db) {
        RunFrozen(r, max, next, steps[1..], w);
      } else {
        RunStaysOver(r, max, next, steps[1..], w);
      }
    }
  }

  lemma {:induction false} RunStaysOver(r: Rules, max: nat, s: System, steps: seq<Step>, w: Version)
    requires SystemInv(r, s) && Over(s.db, w)
    ensures Over(Run(r, max, s, steps).db, w)
    decreases steps
  {
    if steps != [] {
      NextKeeps(r, max, s, steps[0]);
      NextStaysOver(r, max, s, steps[0], w);
      RunStaysOver(r, max, Next(r, max, s, steps[0]), steps[1..], w);
    }
  }

  // ---------------------------------------------------------------- the round trip

  /** Restore then publish is a round trip. In `s` the group shows the published revision `v`.
      After any run, restore `v`; then publish. Readers see what they saw in `s`. */
  lemma RestoreRoundTripGroup(r: Rules, max: nat, s: System, v: Version, before: seq<Step>, expected: Version)
    requires Reachable(r, max, s) && Settled(s.db, v) && s.db.manifests[v].status.ManifestPublished? && Shows(r, s.db, v)
    requires RestoreGroup(r, Run(r, max, s, before).db, v, expected).Ok?
    requires PublishGroup(r, RestoreGroup(r, Run(r, max, s, before).db, v, expected).value, expected + 1).Ok?
    ensures var after := PublishGroup(r, RestoreGroup(r, Run(r, max, s, before).db, v, expected).value, expected + 1).value;
      && LiveChildren(after.childRows) == LiveChildren(s.db.childRows)
      && Visible(after.pageRows) == Visible(s.db.pageRows)
  {
    ReachableHolds(r, max, s);
    RunKeeps(r, max, s, before);
    RunGrows(r, max, s, before);
    var later := Run(r, max, s, before).db;
    RecordIsPermanent(r, s.db, later, v);
    RestoreThenPublishGroup(r, later, v, expected);
  }

  /** The same on the second template, where publishing starts, anything the freeze allows
      happens `during` it, and a completion lands. */
  lemma RestoreRoundTripHome(r: Rules, max: nat, s: System, v: Version, before: seq<Step>, expected: Version,
                             restored: System, publishing: System, during: seq<Step>)
    requires Reachable(r, max, s) && Settled(s.db, v) && s.db.manifests[v].status.ManifestPublished? && Shows(r, s.db, v)
    requires var later := Run(r, max, s, before);
      RestoreGroup(r, later.db, v, expected) == Ok(restored.db) && restored == later.(db := restored.db)
    requires StartHomePublish(r, restored.db, expected + 1) == Ok(publishing.db) && publishing == restored.(db := publishing.db)
    requires var w := expected + 2;
      var end := Run(r, max, publishing, during);
      end.db.page.status.Publishing? && end.db.page.version == w && CompleteHomePublish(r, end.db, w, w).Ok?
    ensures var after := CompleteHomePublish(r, Run(r, max, publishing, during).db, expected + 2, expected + 2).value;
      && LiveChildren(after.childRows) == LiveChildren(s.db.childRows)
      && Visible(after.pageRows) == Visible(s.db.pageRows)
  {
    hide Inv, RestoreGroup, StartHomePublish, CompleteHomePublish, Run, Grows, RecordedChildren, RecordedPage;
    var later := Run(r, max, s, before);
    var end := Run(r, max, publishing, during);
    ReachableHolds(r, max, s);
    RunKeeps(r, max, s, before);
    RunGrows(r, max, s, before);
    RecordIsPermanent(r, s.db, later.db, v);
    StartedHolds(r, later, restored, publishing, v, expected);
    StartKeepsContent(r, restored.db, expected + 1);
    DuringKeepsGroup(r, max, publishing, expected + 2, during);
    PublishingIsNotDelivered(r, end.db);
    RestoredHomeShows(r, later.db, restored.db, publishing.db, end.db, v, expected);
  }

  lemma AppliedHolds(r: Rules, s: System, op: Op, after: System)
    requires SystemInv(r, s) && Apply(r, s.db, op) == Ok(after.db) && after == s.(db := after.db)
    ensures SystemInv(r, after)
  {
    hide *;
    DoKeeps(r, s, op);
  }

  lemma StartedHolds(r: Rules, later: System, restored: System, publishing: System, v: Version, expected: Version)
    requires SystemInv(r, later)
    requires RestoreGroup(r, later.db, v, expected) == Ok(restored.db) && restored == later.(db := restored.db)
    requires StartHomePublish(r, restored.db, expected + 1) == Ok(publishing.db) && publishing == restored.(db := publishing.db)
    ensures SystemInv(r, publishing)
  {
    hide *;
    AppliesAre(r, later.db, restored.db, v, expected);
    AppliedHolds(r, later, OpRestoreGroup(v, expected), restored);
    AppliedHolds(r, restored, OpStartHomePublish(expected + 1), publishing);
  }

  lemma AppliesAre(r: Rules, a: Db, b: Db, v: Version, expected: Version)
    ensures Apply(r, a, OpRestoreGroup(v, expected)) == RestoreGroup(r, a, v, expected)
    ensures Apply(r, b, OpStartHomePublish(expected + 1)) == StartHomePublish(r, b, expected + 1)
  {
  }

  lemma DuringKeepsGroup(r: Rules, max: nat, publishing: System, w: Version, during: seq<Step>)
    requires SystemInv(r, publishing) && publishing.db.page.status.Publishing? && publishing.db.page.version == w
    requires var end := Run(r, max, publishing, during); end.db.page.status.Publishing? && end.db.page.version == w
    ensures var end := Run(r, max, publishing, during); Inv(r, end.db) && SameGroup(publishing.db, end.db)
  {
    RunKeeps(r, max, publishing, during);
    RunFrozen(r, max, publishing, during, w);
  }

  lemma RestoredHomeShows(r: Rules, later: Db, restored: Db, publishing: Db, end: Db, v: Version, expected: Version)
    requires Inv(r, later) && Settled(later, v) && later.manifests[v].status.ManifestPublished?
    requires RestoreGroup(r, later, v, expected) == Ok(restored)
    requires StartHomePublish(r, restored, expected + 1) == Ok(publishing)
    requires Inv(r, end) && SameGroup(publishing, end) && !DeliveredAt(end.outbox, expected + 2)
    requires CompleteHomePublish(r, end, expected + 2, expected + 2).Ok?
    ensures var after := CompleteHomePublish(r, end, expected + 2, expected + 2).value;
      && LiveChildren(after.childRows) == RecordedChildren(later.children, later.manifests[v].manifest.items)
      && Visible(after.pageRows) == RecordedPage(r, later, v)
  {
    hide Inv, RestoreGroup, StartHomePublish, CompleteHomePublish;
    StartKeepsContent(r, restored, expected + 1);
    RestoreKeepsContent(r, later, v, expected);
    RestoreThenCompleteHome(r, later, v, expected, end, expected + 2);
  }

  lemma RestoreKeepsContent(r: Rules, db: Db, v: Version, expected: Version)
    requires RestoreGroup(r, db, v, expected).Ok?
    ensures v in db.page.revisions && RestoreGroup(r, db, v, expected).value.page.content == db.page.revisions[v]
  {
  }

  lemma PublishingIsNotDelivered(r: Rules, db: Db)
    requires Inv(r, db) && db.page.status.Publishing?
    ensures !DeliveredAt(db.outbox, db.page.version)
  {
  }

  lemma StartKeepsContent(r: Rules, db: Db, expected: Version)
    requires StartHomePublish(r, db, expected).Ok?
    ensures var after := StartHomePublish(r, db, expected).value;
      && after.children == db.children && after.page.content == db.page.content
      && after.pageRows == db.pageRows && after.childRows == db.childRows
      && after.page.status.Publishing? && after.page.version == expected + 1 && db.page.version == expected
  {
    BaselineGrows(r, db);
  }
}
