/** What the worker guarantees about the grants of bulletins over whole runs, and the exact steps
    after which a grant is nobody's to revoke. */
module BulletinGrants {
  import opened ContentModel
  import opened Bulletins
  import opened BulletinInvariants
  import opened BulletinWorker
  import Transactions = BulletinGuarantees

  ghost predicate Reachable(max: nat, s: System) {
    exists start, steps :: Initial(start) && s == Run(max, start, steps)
  }

  lemma ReachableHolds(max: nat, s: System)
    requires Reachable(max, s)
    ensures SystemInv(s)
  {
    var start, steps :| Initial(start) && s == Run(max, start, steps);
    InitialHolds(start);
    RunKeeps(max, start, steps);
  }

  lemma {:induction false} RunThenNext(max: nat, s: System, steps: seq<Step>, step: Step)
    ensures Run(max, s, steps + [step]) == Next(max, Run(max, s, steps), step)
    decreases steps
  {
    hide Next;
    if steps == [] {
      assert steps + [step] == [step] && [step][1..] == [];
    } else {
      assert (steps + [step])[0] == steps[0] && (steps + [step])[1..] == steps[1..] + [step];
      RunThenNext(max, Next(max, s, steps[0]), steps[1..], step);
    }
  }

  lemma NextIsReachable(max: nat, s: System, step: Step)
    requires Reachable(max, s)
    ensures Reachable(max, Next(max, s, step))
  {
    hide Next, Run, Initial;
    var start, steps :| Initial(start) && s == Run(max, start, steps);
    RunThenNext(max, start, steps, step);
  }

  /** The worker's protocol only performs the transactions bulletins are proved right under, so
      the latest rows, the lockstep and the notices are as they are there. */
  lemma {:induction false} RunsAreTransactions(max: nat, start: System, steps: seq<Step>)
    requires Initial(start)
    ensures Transactions.Reachable(Run(max, start, steps).b)
    decreases |steps|
  {
    hide Next, TransactionOf, SystemInv, Transactions.Reachable, Transactions.Next, Run;
    if steps == [] {
      StartIsTransactional(max, start);
    } else {
      var n := |steps| - 1;
      assert steps == steps[..n] + [steps[n]];
      RunsAreTransactions(max, start, steps[..n]);
      RunThenNext(max, start, steps[..n], steps[n]);
      InitialHolds(start);
      RunKeeps(max, start, steps[..n]);
      var s := Run(max, start, steps[..n]);
      SystemParts(s);
      StepIsTransaction(max, s, steps[n]);
      if TransactionOf(s, steps[n]).Some? { Transactions.NextIsReachable(s.b, TransactionOf(s, steps[n]).value); }
    }
  }

  lemma StartIsTransactional(max: nat, start: System)
    requires Initial(start)
    ensures Run(max, start, []) == start && Transactions.Reachable(start.b)
  {
    assert Transactions.Run(start.b, []) == start.b;
  }

  // ---------------------------------------------------------------- what readers see

  /** What readers can download is granted and not revoked, and no live event is about to revoke
      it: neither a compensation, nor a retirement, nor a withdrawal. */
  lemma LiveGrantIsKept(max: nat, s: System, l: Locale, d: Date, key: EventKey)
    requires Reachable(max, s) && (l, d) in s.b.rows
    ensures var g := Grant(s.b.rows[(l, d)].issue, l, s.b.rows[(l, d)].version);
      && Records(s.b, g) && g in s.granted && g !in s.revoked && DeliveredAt(s.b.outbox, g)
      && !RevokeQueued(s.b.outbox, g) && !RetireQueued(s.b.outbox, g)
      && (key in s.b.outbox && LiveEvent(s.b.outbox[key]) ==> s.b.outbox[key].grant != Some(g))
  {
    ReachableHolds(max, s);
    var g := Grant(s.b.rows[(l, d)].issue, l, s.b.rows[(l, d)].version);
    assert Records(s.b, g) && g !in s.revoked;
    RecordedIsNotQueued(s, g);
    if key in s.b.outbox && LiveEvent(s.b.outbox[key]) && s.b.outbox[key].grant.Some? {
      assert RevokerInv(s.b, s.granted, s.revoked, key, s.b.outbox[key]);
      TargetIsHidden(s, key);
    }
    hide SystemInv;
  }

  lemma RecordedIsNotQueued(s: System, g: Grant)
    requires RecordInv(s.b) && LedgerInv(s.b, s.granted, s.revoked) && Records(s.b, g)
    ensures DeliveredAt(s.b.outbox, g) && g in s.granted && !RevokeQueued(s.b.outbox, g) && !RetireQueued(s.b.outbox, g)
  {
    assert DeliveredAt(s.b.outbox, g);
    forall key | key in s.b.outbox ensures RevokerInv(s.b, s.granted, s.revoked, key, s.b.outbox[key]) {}
    forall asset ensures !Retires(s.b.outbox, asset, g) {
      var key := RetireKey(g.issue, g.locale, asset);
      assert key in s.b.outbox ==> RevokerInv(s.b, s.granted, s.revoked, key, s.b.outbox[key]);
    }
    assert GrantOf(RevokeKey(g.issue, g.locale, g.version)) == g;
  }

  /** A revocation event is over, delivered or failed, only after its grant was revoked. */
  lemma RevocationsAreDone(max: nat, s: System, key: EventKey)
    requires Reachable(max, s) && key in s.b.outbox && !key.PublishKey?
    requires !LiveEvent(s.b.outbox[key]) && s.b.outbox[key].grant.Some?
    ensures s.b.outbox[key].grant.value in s.revoked
  {
    ReachableHolds(max, s);
  }

  // ---------------------------------------------------------------- how attempts end

  /** Delivered; and the grant is recorded, or was since revoked, retired or superseded. */
  ghost predicate EndsDelivered(s: System, g: Grant) {
    && DeliveredAt(s.b.outbox, g) && g in s.granted
    && (Records(s.b, g) || g in s.revoked || RetireQueued(s.b.outbox, g) || Superseded(s.b.outbox, g))
  }

  predicate EndsPending(s: System, g: Grant) {
    LiveAt(s.b.outbox, KeyOf(g)) && g in s.granted
  }

  predicate EndsCompensated(s: System, g: Grant) {
    FailedAt(s.b.outbox, g) && RevokeQueued(s.b.outbox, g)
  }

  /** Whatever errors, lost replies or crashes hit it, an attempt to publish that obtained its
      grant ends in exactly one of three states: delivered with the grant recorded, still pending
      under the same grant, or failed with a revocation of the grant queued. */
  lemma HoldingAttemptOutcome(max: nat, s: System, step: Step, g: Grant)
    requires Reachable(max, s)
    requires KeyOf(g) in s.attempts && s.attempts[KeyOf(g)].holds
    requires KeyOf(g) !in Next(max, s, step).attempts
    ensures var after := Next(max, s, step);
      && (EndsDelivered(after, g) || EndsPending(after, g) || EndsCompensated(after, g))
      && !(EndsDelivered(after, g) && EndsPending(after, g))
      && !(EndsDelivered(after, g) && EndsCompensated(after, g))
      && !(EndsPending(after, g) && EndsCompensated(after, g))
  {
    hide SystemInv, Next;
    ReachableHolds(max, s);
    SystemParts(s);
    NextKeeps(max, s, step);
    HolderEnds(max, s, step, g);
    SystemParts(Next(max, s, step));
    hide Inv, RecordInv, LedgerInv, ShownInv;
    LedgerKnows(Next(max, s, step), g);
  }

  lemma LedgerKnows(s: System, g: Grant)
    requires LedgerInv(s.b, s.granted, s.revoked)
    ensures DeliveredAt(s.b.outbox, g) ==> g in s.granted
    ensures RevokeQueued(s.b.outbox, g) ==> FailedAt(s.b.outbox, g) && g in s.granted
    ensures g in s.granted ==> KeyOf(g) in s.b.outbox
  {
    forall key | key in s.b.outbox ensures RevokerInv(s.b, s.granted, s.revoked, key, s.b.outbox[key]) {}
    assert GrantOf(RevokeKey(g.issue, g.locale, g.version)) == g;
  }

  /** A held grant is never left on a failed event without its revocation. */
  lemma HolderEnds(max: nat, s: System, step: Step, g: Grant)
    requires SystemInv(s) && KeyOf(g) in s.attempts && s.attempts[KeyOf(g)].holds
    requires KeyOf(g) !in Next(max, s, step).attempts
    ensures var after := Next(max, s, step);
      && g in after.granted && KeyOf(g) in after.b.outbox
      && (FailedAt(after.b.outbox, g) ==> RevokeQueued(after.b.outbox, g))
  {
    hide SystemInv, Inv, Transactions.Next, DoComplete, DoCompensate;
    HolderIsInOrder(s, KeyOf(g));
    match step
    case Complete(key, fault) => HolderCompletes(max, s, key, fault, g);
    case Compensate(key, fault) => HolderCompensates(s, key, fault, g);
    case _ =>
  }

  lemma HolderCompletes(max: nat, s: System, key: EventKey, fault: Fault, g: Grant)
    requires SystemInv(s) && KeyOf(g) in s.attempts && s.attempts[KeyOf(g)].holds
    requires KeyOf(g) !in DoComplete(max, s, key, fault).attempts
    ensures var after := DoComplete(max, s, key, fault);
      && g in after.granted && KeyOf(g) in after.b.outbox && DeliveredAt(after.b.outbox, g)
  {
    hide SystemInv, Inv, Finished;
    HolderIsInOrder(s, KeyOf(g));
    if Finished(s.b, key).Ok? && CanFinish(s, key) { PublishCommitKeeps(s, key); }
  }

  lemma HolderCompensates(s: System, key: EventKey, fault: Fault, g: Grant)
    requires SystemInv(s) && KeyOf(g) in s.attempts && s.attempts[KeyOf(g)].holds
    requires KeyOf(g) !in DoCompensate(s, key, fault).attempts
    ensures var after := DoCompensate(s, key, fault);
      && g in after.granted && KeyOf(g) in after.b.outbox && RevokeQueued(after.b.outbox, g)
  {
    hide SystemInv, Inv, FailPublish;
    HolderIsInOrder(s, KeyOf(g));
    HolderIsNotRevoked(s, g);
    CompensationWrites(s.b, g);
  }

  lemma HolderIsNotRevoked(s: System, g: Grant)
    requires SystemInv(s) && At(s, KeyOf(g), Compensating)
    ensures LiveAt(s.b.outbox, KeyOf(g)) && !RevokeQueued(s.b.outbox, g)
  {
    hide Inv, RecordInv, AccountInv, ShownInv;
    assert AttemptInv(s, KeyOf(g));
    LiveIsNotRevoked(s, g);
  }

  lemma HolderIsInOrder(s: System, key: EventKey)
    requires SystemInv(s)
    ensures AttemptInv(s, key)
  {
    hide Inv, RecordInv, LedgerInv, AccountInv, ShownInv;
  }

  // ---------------------------------------------------------------- leaks

  /** Created, and nobody's to revoke: not recorded, not queued, and its publication over. */
  ghost predicate Leaked(s: System, g: Grant) {
    && g in s.granted && g !in s.revoked
    && !Records(s.b, g) && !RevokeQueued(s.b.outbox, g) && !RetireQueued(s.b.outbox, g) && !LiveAt(s.b.outbox, KeyOf(g))
  }

  /** Completing the publication of `key` hands the grant over to a retirement: the edition is to
      retire it, with another file than the one published now, and was not to retire that file
      before. */
  predicate HandedOver(b: Tables, key: EventKey, g: Grant)
    requires key.PublishKey? && key in b.outbox && key.issue in b.issues && key.locale in b.issues[key.issue].editions
  {
    var edition := b.issues[key.issue].editions[key.locale];
    && edition.retiringGrant == Some(g)
    && edition.retiringAsset.Some? && edition.retiringAsset.value != b.outbox[key].asset
    && RetireKey(key.issue, key.locale, edition.retiringAsset.value) !in b.outbox
  }

  /** An attempt that does not hold the grant gives its publication up. */
  predicate GivesUp(s: System, step: Step, g: Grant) {
    && step.Settle? && step.key == KeyOf(g) && !step.fault.LostBefore?
    && At(s, step.key, Settling(ToFail))
    && g in s.granted
  }

  /** A publication of the same edition completes in the grant's place without handing it over. */
  predicate Displaces(s: System, step: Step, g: Grant) {
    && step.Complete? && step.key.PublishKey? && !step.fault.LostBefore?
    && step.key.issue == g.issue && step.key.locale == g.locale
    && CanFinish(s, step.key)
    && Records(s.b, g) && g !in s.revoked && !HandedOver(s.b, step.key, g)
  }

  predicate LeakStep(s: System, step: Step, g: Grant) {
    GivesUp(s, step, g) || Displaces(s, step, g)
  }

  /** A step leaks a grant exactly when it is such a step, and a leaked grant stays leaked. */
  lemma LeaksExactlyWhen(max: nat, s: System, step: Step, g: Grant)
    requires SystemInv(s)
    ensures Leaked(Next(max, s, step), g) <==> Leaked(s, g) || LeakStep(s, step, g)
    ensures LeakStep(s, step, g) ==> !Leaked(s, g)
  {
    hide SystemInv, Transactions.Next, Leaked, GivesUp, Displaces, DoComplete, DoCompensate, DoSettle, DoCreateGrant,
      DoRevokeGrant, DoClaim;
    match step
    case Do(op) => DoLeaksNothing(s, op, g); NotThere(s, step, g);
    case ClaimNext(key) => ClaimLeaksNothing(s, key, g); NotThere(s, step, g);
    case CreateGrant(key, fault) => GrantingLeaksNothing(s, key, fault, g); NotThere(s, step, g);
    case RevokeGrant(key, fault) => RevokingLeaksNothing(s, key, fault, g); NotThere(s, step, g);
    case Complete(key, fault) => CompletionLeaks(max, s, key, fault, g);
    case Compensate(key, fault) => CompensationLeaksNothing(s, key, fault, g); NotThere(s, step, g);
    case Settle(key, fault) => SettlingLeaks(s, key, fault, g);
    case _ => AttemptsDoNotLeak(max, s, step, g); NotThere(s, step, g);
  }

  lemma NotThere(s: System, step: Step, g: Grant)
    requires !step.Settle? && !step.Complete?
    ensures !LeakStep(s, step, g)
  {
  }

  lemma AttemptsDoNotLeak(max: nat, s: System, step: Step, g: Grant)
    requires step.GetAsset? || step.Notify? || step.DeleteAsset? || step.Confirm? || step.Crash?
    ensures Leaked(Next(max, s, step), g) == Leaked(s, g)
  {
    hide Leaked;
    var after := Next(max, s, step);
    assert after.b == s.b && after.granted == s.granted && after.revoked == s.revoked;
    SameLedgerLeaksAlike(s, after, g);
  }

  lemma SameLedgerLeaksAlike(s: System, after: System, g: Grant)
    requires after.b == s.b && after.granted == s.granted && after.revoked == s.revoked
    ensures Leaked(after, g) == Leaked(s, g)
  {
  }

  /** What leaks depends on these. */
  lemma LeakedAlike(s: System, after: System, g: Grant)
    requires g in s.granted ==> KeyOf(g) in s.b.outbox
    requires (g in after.granted <==> g in s.granted) && (g in after.revoked <==> g in s.revoked)
    requires Records(after.b, g) == Records(s.b, g)
    requires forall k | k in s.b.outbox :: k in after.b.outbox && after.b.outbox[k].grant == s.b.outbox[k].grant
    requires forall k | k in after.b.outbox && (k.RevokeKey? || k.RetireKey?) :: k in s.b.outbox
    requires KeyOf(g) in s.b.outbox ==> LiveAt(after.b.outbox, KeyOf(g)) == LiveAt(s.b.outbox, KeyOf(g))
    ensures Leaked(after, g) == Leaked(s, g)
  {
    hide Records;
    forall asset ensures Retires(after.b.outbox, asset, g) == Retires(s.b.outbox, asset, g) {}
    hide Retires;
    assert RetireQueued(after.b.outbox, g) == RetireQueued(s.b.outbox, g);
  }

  lemma DoLeaksNothing(s: System, op: Transactions.Step, g: Grant)
    requires SystemInv(s)
    ensures var after := if Administrative(op) then s.(b := Transactions.Next(s.b, op)) else s; Leaked(after, g) == Leaked(s, g)
  {
    hide SystemInv, Transactions.Next, Leaked;
    match op
    case Publish(id, l, expected, notify) => StartingLeaksNothing(s, op, g);
    case Withdraw(id, l, expected) => StartingLeaksNothing(s, op, g);
    case _ => if Administrative(op) { EditingLeaksNothing(s, op, g); }
  }

  lemma StartingLeaksNothing(s: System, op: Transactions.Step, g: Grant)
    requires SystemInv(s) && (op.Publish? || op.Withdraw?)
    ensures Leaked(s.(b := Transactions.Next(s.b, op)), g) == Leaked(s, g)
  {
    hide SystemInv, Inv, RecordInv, LedgerInv, SameRecords, StartPublish, Unpublish, Leaked, Records;
    SystemParts(s);
    LedgerKnows(s, g);
    match op
    case Publish(id, l, expected, notify) =>
      if StartPublish(s.b, id, l, expected, notify).Ok? {
        StartPublishWrites(s.b, id, l, expected, notify);
        SameRecordsRecord(s.b, Transactions.Next(s.b, op), g);
        LeakedAlike(s, s.(b := Transactions.Next(s.b, op)), g);
      }
    case Withdraw(id, l, expected) =>
      if Unpublish(s.b, id, l, expected).Ok? {
        WithdrawWrites(s.b, id, l, expected);
        SameRecordsRecord(s.b, Transactions.Next(s.b, op), g);
        LeakedAlike(s, s.(b := Transactions.Next(s.b, op)), g);
      }
  }

  lemma EditingLeaksNothing(s: System, op: Transactions.Step, g: Grant)
    requires SystemInv(s) && Administrative(op) && !op.Publish? && !op.Withdraw?
    ensures Leaked(s.(b := Transactions.Next(s.b, op)), g) == Leaked(s, g)
  {
    hide SystemInv, Inv, RecordInv, LedgerInv, SameGrants, Transactions.Next, Leaked;
    SystemParts(s);
    LedgerKnows(s, g);
    match op {
      case Create(id, number, date) => CreateKeepsGrants(s.b, id, number, date);
      case Remove(id, expected) => RemoveKeepsGrants(s.b, id, expected);
      case _ => EditKeepsGrants(s.b, op);
    }
    EditLeaksNothing(s, Transactions.Next(s.b, op), g);
  }

  lemma SameRecordsRecord(b: Tables, after: Tables, g: Grant)
    requires SameRecords(b, after)
    ensures Records(after, g) == Records(b, g)
  {
  }

  lemma EditLeaksNothing(s: System, after: Tables, g: Grant)
    requires SameGrants(s.b, after)
    ensures Leaked(s.(b := after), g) == Leaked(s, g)
  {
  }

  lemma ClaimLeaksNothing(s: System, key: EventKey, g: Grant)
    requires SystemInv(s)
    ensures Leaked(DoClaim(s, key), g) == Leaked(s, g)
  {
    hide Inv, RecordInv, AccountInv, ShownInv, Leaked;
    LedgerKnows(s, g);
    LeakedAlike(s, DoClaim(s, key), g);
  }

  lemma GrantingLeaksNothing(s: System, key: EventKey, fault: Fault, g: Grant)
    requires SystemInv(s)
    ensures Leaked(DoCreateGrant(s, key, fault), g) == Leaked(s, g)
  {
    hide Inv, RecordInv, LedgerInv, AccountInv, ShownInv, Records, RetireQueued;
    if At(s, key, Claimed) && key.PublishKey? { assert AttemptInv(s, key); }
  }

  lemma RevokingLeaksNothing(s: System, key: EventKey, fault: Fault, g: Grant)
    requires SystemInv(s)
    ensures Leaked(DoRevokeGrant(s, key, fault), g) == Leaked(s, g)
  {
    hide Inv, AccountInv, ShownInv, RecordInv;
    if At(s, key, Claimed) && !key.PublishKey? && !key.NoticeKey? && s.b.outbox[key].grant.Some? {
      assert AttemptInv(s, key);
      assert RevokerInv(s.b, s.granted, s.revoked, key, s.b.outbox[key]);
      var h := s.b.outbox[key].grant.value;
      if key.RetireKey? { assert Retires(s.b.outbox, key.asset, h); }
      assert Records(s.b, h) || RevokeQueued(s.b.outbox, h) || RetireQueued(s.b.outbox, h);
    }
    hide LedgerInv, Records, RetireQueued, RevokeQueued;
  }

  lemma CompensationLeaksNothing(s: System, key: EventKey, fault: Fault, g: Grant)
    requires SystemInv(s)
    ensures Leaked(DoCompensate(s, key, fault), g) == Leaked(s, g)
  {
    hide Inv, RecordInv, LedgerInv, AccountInv, ShownInv, FailPublish, SameRecords, Leaked;
    if At(s, key, Compensating) && key.PublishKey? && !fault.LostBefore? {
      assert AttemptInv(s, key);
      LiveIsNotRevoked(s, GrantOf(key));
      CompensationWrites(s.b, GrantOf(key));
      LedgerKnows(s, g);
      var after := DoCompensate(s, key, fault);
      SameRecordsRecord(s.b, after.b, g);
      if g == GrantOf(key) { NeitherLeaks(s, after, g); } else { OthersAlike(s, after, g, GrantOf(key)); }
    } else {
      TablesDecide(s, DoCompensate(s, key, fault), g);
    }
  }

  lemma NeitherLeaks(s: System, after: System, g: Grant)
    requires LiveAt(s.b.outbox, KeyOf(g)) && RevokeQueued(after.b.outbox, g)
    ensures !Leaked(s, g) && !Leaked(after, g)
  {
  }

  lemma OthersAlike(s: System, after: System, g: Grant, h: Grant)
    requires g != h && (g in s.granted ==> KeyOf(g) in s.b.outbox)
    requires after.granted == s.granted && after.revoked == s.revoked && Records(after.b, g) == Records(s.b, g)
    requires var key := RevokeKey(h.issue, h.locale, h.version);
      && KeyOf(h) in s.b.outbox && key in after.b.outbox
      && after.b.outbox == s.b.outbox[KeyOf(h) := s.b.outbox[KeyOf(h)].(status := FailedEvent)][key := after.b.outbox[key]]
    ensures Leaked(after, g) == Leaked(s, g)
  {
    hide Records;
    forall asset ensures Retires(after.b.outbox, asset, g) == Retires(s.b.outbox, asset, g) {}
    hide Retires;
    assert RetireQueued(after.b.outbox, g) == RetireQueued(s.b.outbox, g);
  }

  lemma SettlingLeaks(s: System, key: EventKey, fault: Fault, g: Grant)
    requires SystemInv(s)
    ensures Leaked(DoSettle(s, key, fault), g) <==> Leaked(s, g) || LeakStep(s, Settle(key, fault), g)
    ensures LeakStep(s, Settle(key, fault), g) ==> !Leaked(s, g)
  {
    hide SystemInv, Inv, LedgerInv, StatusWritten, SameRecords, Fail, Leaked, Displaces;
    SystemParts(s);
    LedgerKnows(s, g);
    if key in s.attempts && s.attempts[key].phase.Settling? && key in s.b.outbox && !fault.LostBefore? {
      assert AttemptInv(s, key);
      var after := DoSettle(s, key, fault);
      if s.attempts[key].phase.verdict.ToFail? {
        FailWritesStatus(s, key);
        StatusLeaks(s, key, after, g);
      } else {
        if s.b.outbox[key].status.Processing? {
          ReleaseWritesStatus(s, key, s.attempts[key].phase.verdict.ToDefer?);
          StatusLeaks(s, key, after, g);
        } else {
          LeakedAlike(s, after, g);
        }
      }
    } else {
      LeakedAlike(s, DoSettle(s, key, fault), g);
    }
    assert !Displaces(s, Settle(key, fault), g) by { NoDisplacement(s, Settle(key, fault), g); }
  }

  lemma NoDisplacement(s: System, step: Step, g: Grant)
    requires !step.Complete?
    ensures !Displaces(s, step, g)
  {
  }

  /** A write to one event's status leaks the grant of a publication it fails, if it exists. */
  lemma StatusLeaks(s: System, key: EventKey, after: System, g: Grant)
    requires SystemInv(s) && StatusWritten(s, key, after.b) && after == s.(b := after.b, attempts := after.attempts)
    ensures Leaked(after, g) <==>
            Leaked(s, g) || (key == KeyOf(g) && after.b.outbox[key].status.FailedEvent? && g in s.granted)
    ensures key == KeyOf(g) ==> !Leaked(s, g)
  {
    hide Inv, AccountInv, ShownInv, RecordInv;
    LedgerKnows(s, g);
    StatusRecords(s, key, after.b, g);
    if key == KeyOf(g) {
      LiveIsNotRevoked(s, g);
      LiveHasNoPlace(s, g);
      hide LedgerInv, Records, SameRecords;
      forall asset ensures Retires(after.b.outbox, asset, g) == Retires(s.b.outbox, asset, g) {}
    } else {
      hide LedgerInv, Leaked, SameRecords;
      LeakedAlike(s, after, g);
    }
  }

  lemma StatusRecords(s: System, key: EventKey, after: Tables, g: Grant)
    requires StatusWritten(s, key, after)
    ensures Records(after, g) == Records(s.b, g)
  {
  }

  /** While its publication is live, a grant is neither recorded nor to be retired. */
  lemma LiveHasNoPlace(s: System, g: Grant)
    requires SystemInv(s) && LiveAt(s.b.outbox, KeyOf(g))
    ensures !Records(s.b, g) && forall asset :: !Retires(s.b.outbox, asset, g)
  {
    hide Inv, AccountInv, ShownInv;
    assert !DeliveredAt(s.b.outbox, g);
    forall asset ensures !Retires(s.b.outbox, asset, g) {
      var key := RetireKey(g.issue, g.locale, asset);
      assert key in s.b.outbox ==> RevokerInv(s.b, s.granted, s.revoked, key, s.b.outbox[key]);
    }
  }

  lemma CompletionGoesThrough(b: Tables, key: EventKey)
    requires Inv(b) && LiveAt(b.outbox, key) && key.PublishKey?
    ensures key.issue in b.issues && key.locale in b.issues[key.issue].editions
    ensures CompletePublish(b, key.issue, key.locale, key.version).Ok?
  {
    hide Inv, RequestNotice, RetireFile, Advance;
    Transactions.LiveIsInFlight(b, key);
  }

  /** The retirement a completion queues, if any. */
  lemma RetirementAfter(b: Tables, key: EventKey, asset: string, g: Grant)
    requires LiveAt(b.outbox, key) && key.PublishKey? && CompletePublish(b, key.issue, key.locale, key.version).Ok?
    requires key.issue in b.issues && key.locale in b.issues[key.issue].editions
    requires g.issue == key.issue && g.locale == key.locale
    requires forall a :: !Retires(b.outbox, a, g)
    ensures var edition := b.issues[key.issue].editions[key.locale];
      Retires(CompletePublish(b, key.issue, key.locale, key.version).value.outbox, asset, g) <==>
      HandedOver(b, key, g) && edition.retiringAsset == Some(asset)
  {
    CompletionOutbox(b, key.issue, key.locale, key.version);
    hide CompletePublish;
    assert !Retires(b.outbox, asset, g);
    var retired := RetireFile(Deliver(b.outbox, key), key.issue, key.locale, b.issues[key.issue].editions[key.locale], b.outbox[key].asset);
    NoticeAdds(retired, key.issue);
    hide RequestNotice;
  }

  lemma PublicationLeaks(s: System, key: EventKey, g: Grant)
    requires SystemInv(s) && CanFinish(s, key) && key.PublishKey?
    ensures Finished(s.b, key).Ok? && key.issue in s.b.issues && key.locale in s.b.issues[key.issue].editions
    ensures Leaked(s.(b := Finished(s.b, key).value), g) <==>
            Leaked(s, g) || (g.issue == key.issue && g.locale == key.locale && Records(s.b, g) && g !in s.revoked && !HandedOver(s.b, key, g))
    ensures Records(s.b, g) ==> !Leaked(s, g)
  {
    hide Inv, RecordInv, LedgerInv, AccountInv, ShownInv, CompletePublish, PublishedBy, HandedOver, Leaked;
    assert AttemptInv(s, key);
    CompletionGoesThrough(s.b, key);
    CompletionWrites(s.b, key.issue, key.locale, key.version);
    CompletionPlaces(s.b, Finished(s.b, key).value, GrantOf(key), g);
    LiveHasNoPlace(s, GrantOf(key));
    LedgerKnows(s, g);
    if g == GrantOf(key) {
      PublishedIsNotLeaked(s, Finished(s.b, key).value, g);
    } else if g.issue == key.issue && g.locale == key.locale && Records(s.b, g) {
      DisplacedLeaks(s, key, g);
    } else {
      UntouchedLeaks(s, key, g);
    }
    RecordedIsNotLeaked(s, g);
  }

  lemma RecordedIsNotLeaked(s: System, g: Grant)
    ensures Records(s.b, g) ==> !Leaked(s, g)
  {
  }

  lemma PublishedIsNotLeaked(s: System, after: Tables, g: Grant)
    requires LiveAt(s.b.outbox, KeyOf(g)) && Records(after, g)
    ensures !Leaked(s, g) && !Leaked(s.(b := after), g)
  {
  }

  /** Where a completion leaves a grant. */
  lemma CompletionPlaces(b: Tables, after: Tables, h: Grant, g: Grant)
    requires PublishedBy(b, after, h) && LiveAt(b.outbox, KeyOf(h))
    ensures Records(after, g) <==> g == h || (Records(b, g) && !(g.issue == h.issue && g.locale == h.locale))
    ensures RevokeQueued(after.outbox, g) == RevokeQueued(b.outbox, g)
    ensures g != h && KeyOf(g) in b.outbox ==> LiveAt(after.outbox, KeyOf(g)) == LiveAt(b.outbox, KeyOf(g))
    ensures forall asset :: Retires(b.outbox, asset, g) ==> Retires(after.outbox, asset, g)
    ensures forall asset :: Retires(after.outbox, asset, g) ==>
              Retires(b.outbox, asset, g) || (g.issue == h.issue && g.locale == h.locale && RetiringAt(b, h.issue, h.locale) == Some(g))
  {
    hide RecordedAt, RetiringAt;
  }

  lemma DisplacedLeaks(s: System, key: EventKey, g: Grant)
    requires SystemInv(s) && CanFinish(s, key) && key.PublishKey? && Finished(s.b, key).Ok?
    requires key.issue in s.b.issues && key.locale in s.b.issues[key.issue].editions
    requires g.issue == key.issue && g.locale == key.locale && Records(s.b, g) && g != GrantOf(key)
    ensures Leaked(s.(b := Finished(s.b, key).value), g) <==> g !in s.revoked && !HandedOver(s.b, key, g)
  {
    hide Inv, AccountInv, ShownInv, CompletePublish, PublishedBy, HandedOver;
    assert AttemptInv(s, key);
    RecordedIsNotQueued(s, g);
    forall a ensures !Retires(s.b.outbox, a, g) {}
    hide LedgerInv, RecordInv;
    CompletionWrites(s.b, key.issue, key.locale, key.version);
    CompletionPlaces(s.b, Finished(s.b, key).value, GrantOf(key), g);
    forall asset ensures Retires(Finished(s.b, key).value.outbox, asset, g) <==>
        HandedOver(s.b, key, g) && s.b.issues[key.issue].editions[key.locale].retiringAsset == Some(asset) {
      RetirementAfter(s.b, key, asset, g);
    }
    if HandedOver(s.b, key, g) {
      HandedHasAsset(s.b, key, g);
      assert Retires(Finished(s.b, key).value.outbox, s.b.issues[key.issue].editions[key.locale].retiringAsset.value, g);
    }
    hide Records, Retires, DeliveredAt;
    assert !LiveAt(s.b.outbox, KeyOf(g)) by { DeliveredIsNotLive(s.b.outbox, g); }
  }

  lemma HandedHasAsset(b: Tables, key: EventKey, g: Grant)
    requires key.PublishKey? && key in b.outbox && key.issue in b.issues && key.locale in b.issues[key.issue].editions
    requires HandedOver(b, key, g)
    ensures b.issues[key.issue].editions[key.locale].retiringAsset.Some?
  {
  }

  lemma DeliveredIsNotLive(outbox: map<EventKey, Event>, g: Grant)
    requires DeliveredAt(outbox, g)
    ensures !LiveAt(outbox, KeyOf(g))
  {
  }

  lemma UntouchedLeaks(s: System, key: EventKey, g: Grant)
    requires SystemInv(s) && CanFinish(s, key) && key.PublishKey? && Finished(s.b, key).Ok? && g != GrantOf(key)
    requires !(g.issue == key.issue && g.locale == key.locale && Records(s.b, g))
    ensures Leaked(s.(b := Finished(s.b, key).value), g) == Leaked(s, g)
  {
    hide Inv, AccountInv, ShownInv, LedgerInv, CompletePublish, PublishedBy;
    assert AttemptInv(s, key);
    LedgerKnows(s, g);
    CompletionWrites(s.b, key.issue, key.locale, key.version);
    var after := Finished(s.b, key).value;
    CompletionPlaces(s.b, after, GrantOf(key), g);
    assert RetiringAt(s.b, key.issue, key.locale) == Some(g) && g.issue == key.issue && g.locale == key.locale ==> Records(s.b, g);
    hide RecordInv, Records, Retires, RetiringAt;
    forall asset ensures Retires(after.outbox, asset, g) == Retires(s.b.outbox, asset, g) {}
    assert RetireQueued(after.outbox, g) == RetireQueued(s.b.outbox, g);
  }

  lemma WithdrawalLeaksNothing(s: System, key: EventKey, g: Grant)
    requires SystemInv(s) && CanFinish(s, key) && key.UnpublishKey? && Finished(s.b, key).Ok?
    ensures Leaked(s.(b := Finished(s.b, key).value), g) == Leaked(s, g)
  {
    hide Inv, AccountInv, ShownInv, RecordInv, CompleteUnpublish;
    assert AttemptInv(s, key);
    assert RevokerInv(s.b, s.granted, s.revoked, key, s.b.outbox[key]);
    LedgerKnows(s, g);
    WithdrawalWrites(s.b, key.issue, key.locale, key.version);
    var after := s.(b := Finished(s.b, key).value);
    if g !in s.revoked {
      assert Records(after.b, g) == Records(s.b, g);
      hide LedgerInv, Records, Leaked;
      LeakedAlike(s, after, g);
    }
    hide LedgerInv, Records, RetireQueued;
  }

  lemma CompletionLeaks(max: nat, s: System, key: EventKey, fault: Fault, g: Grant)
    requires SystemInv(s)
    ensures Leaked(DoComplete(max, s, key, fault), g) <==> Leaked(s, g) || LeakStep(s, Complete(key, fault), g)
    ensures LeakStep(s, Complete(key, fault), g) ==> !Leaked(s, g)
  {
    hide SystemInv, Leaked, Finished, HandedOver;
    var after := DoComplete(max, s, key, fault);
    if !CanFinish(s, key) || fault.LostBefore? {
      TablesDecide(s, after, g);
    } else if key.PublishKey? {
      PublicationLeaks(s, key, g);
      TablesDecide(s.(b := Finished(s.b, key).value), after, g);
    } else if key.UnpublishKey? {
      if Finished(s.b, key).Ok? {
        WithdrawalLeaksNothing(s, key, g);
        TablesDecide(s.(b := Finished(s.b, key).value), after, g);
      } else {
        TablesDecide(s, after, g);
      }
    } else {
      CleanupLeaksNothing(s, key, g);
      TablesDecide(s.(b := Finished(s.b, key).value), after, g);
    }
  }

  lemma TablesDecide(s: System, after: System, g: Grant)
    requires after == s.(attempts := after.attempts)
    ensures Leaked(after, g) == Leaked(s, g)
  {
  }

  lemma CleanupLeaksNothing(s: System, key: EventKey, g: Grant)
    requires SystemInv(s) && CanFinish(s, key) && !key.PublishKey? && !key.UnpublishKey?
    ensures Finished(s.b, key).Ok? && Leaked(s.(b := Finished(s.b, key).value), g) == Leaked(s, g)
  {
    hide Inv, LedgerInv, AccountInv, ShownInv, RecordInv, Leaked;
    assert AttemptInv(s, key);
    NoticesCarryNothing(s, key);
    var after := s.(b := Finished(s.b, key).value);
    if key.NoticeKey? { NoticeWritesStatus(s, key.issue); }
    StatusLeaks(s, key, after, g);
  }

  /** Over whole runs: a grant is leaked exactly when some step of the run leaked it. */
  lemma {:induction false} LeakedExactly(max: nat, start: System, steps: seq<Step>, g: Grant)
    requires Initial(start)
    ensures Leaked(Run(max, start, steps), g) <==>
            exists i | 0 <= i < |steps| :: LeakStep(Run(max, start, steps[..i]), steps[i], g)
    decreases |steps|
  {
    hide Leaked, LeakStep, Next, Initial, SystemInv;
    if steps == [] {
      NothingGranted(start, g);
    } else {
      var n := |steps| - 1;
      var before := steps[..n];
      LeakedExactly(max, start, before, g);
      assert steps == before + [steps[n]];
      RunThenNext(max, start, before, steps[n]);
      InitialHolds(start);
      RunKeeps(max, start, before);
      var s := Run(max, start, before);
      LeaksExactlyWhen(max, s, steps[n], g);
      forall i | 0 <= i < n ensures before[..i] == steps[..i] && before[i] == steps[i] {}
      if exists i | 0 <= i < |steps| :: LeakStep(Run(max, start, steps[..i]), steps[i], g) {
        var i :| 0 <= i < |steps| && LeakStep(Run(max, start, steps[..i]), steps[i], g);
        if i < n { assert LeakStep(Run(max, start, before[..i]), before[i], g); }
      }
      if Leaked(s, g) {
        var i :| 0 <= i < n && LeakStep(Run(max, start, before[..i]), before[i], g);
        assert LeakStep(Run(max, start, steps[..i]), steps[i], g);
      }
    }
  }

  lemma NothingGranted(start: System, g: Grant)
    requires Initial(start)
    ensures !Leaked(start, g)
  {
  }

  // ---------------------------------------------------------------- the leaks happen

  /** An undisturbed attempt to publish, up to its completion. */
  function Obtained(s: System, key: EventKey): System {
    DoCreateGrant(DoClaim(s, key), key, Fine)
  }

  /** From every reachable state in which an edition is put up for publication again and is to
      retire nothing: an undisturbed attempt leaks the grant it recorded. */
  lemma DisplacementLeaks(max: nat, s: System, key: EventKey, g: Grant)
    requires Reachable(max, s) && key.PublishKey? && LiveAt(s.b.outbox, key) && key !in s.attempts
    requires g.issue == key.issue && g.locale == key.locale && Records(s.b, g) && g !in s.revoked
    requires RetiringAt(s.b, key.issue, key.locale).None?
    ensures var after := DoComplete(max, Obtained(s, key), key, Fine);
      Reachable(max, after) && DeliveredAt(after.b.outbox, GrantOf(key)) && Leaked(after, g)
  {
    hide SystemInv, Leaked, Reachable, DoComplete, Finished, Inv;
    NextIsReachable(max, s, ClaimNext(key));
    NextIsReachable(max, DoClaim(s, key), CreateGrant(key, Fine));
    var ready := Obtained(s, key);
    NextIsReachable(max, ready, Complete(key, Fine));
    ObtainedIsReady(s, key, g);
    ReachableHolds(max, ready);
    PublishCompletes(max, ready, key);
    LeaksExactlyWhen(max, ready, Complete(key, Fine), g);
  }

  lemma ObtainedIsReady(s: System, key: EventKey, g: Grant)
    requires key.PublishKey? && LiveAt(s.b.outbox, key) && key !in s.attempts
    requires g.issue == key.issue && g.locale == key.locale && Records(s.b, g) && g !in s.revoked
    requires RetiringAt(s.b, key.issue, key.locale).None?
    ensures CanFinish(Obtained(s, key), key) && LeakStep(Obtained(s, key), Complete(key, Fine), g)
  {
  }

  lemma PublishCompletes(max: nat, s: System, key: EventKey)
    requires SystemInv(s) && CanFinish(s, key) && key.PublishKey?
    ensures DeliveredAt(DoComplete(max, s, key, Fine).b.outbox, GrantOf(key))
  {
    hide SystemInv, Inv, Finished;
    SystemParts(s);
    assert AttemptInv(s, key);
    CompletionGoesThrough(s.b, key);
    CompletesToPublish(s.b, key);
    PublishCommitKeeps(s, key);
  }

  lemma CompletesToPublish(b: Tables, key: EventKey)
    requires key.PublishKey? && key in b.outbox
    ensures Finished(b, key) == CompletePublish(b, key.issue, key.locale, key.version)
  {
  }

  /** Such states are reachable: an edition published and then, as it is, published again. */
  lemma RepublicationIsReachable(max: nat) returns (s: System, g: Grant)
    ensures Reachable(max, s) && LiveAt(s.b.outbox, PublishKey("i", En, 4)) && s.attempts == map[]
    ensures g == Grant("i", En, 3) && Records(s.b, g) && g !in s.revoked && RetiringAt(s.b, "i", En).None?
  {
    hide SystemInv, Reachable, Leaked, DoComplete, Transactions.Next;
    g := Grant("i", En, 3);
    var key := PublishKey("i", En, 3);
    var started := System(Transactions.Started(), {}, {}, map[]);
    StartedIsReachable(max);
    NextIsReachable(max, started, ClaimNext(key));
    NextIsReachable(max, DoClaim(started, key), CreateGrant(key, Fine));
    var ready := Obtained(started, key);
    NextIsReachable(max, ready, Complete(key, Fine));
    var published := DoComplete(max, ready, key, Fine);
    StartedIsPublished(max);
    var again := Transactions.Publish("i", En, 3, false);
    NextIsReachable(max, published, Do(again));
    s := Next(max, published, Do(again));
    PublishedStartsAgain(published.b);
  }

  lemma StartedIsReachable(max: nat)
    ensures Reachable(max, System(Transactions.Started(), {}, {}, map[]))
  {
    hide Transactions.Next;
    var empty := System(Transactions.Fresh(), {}, {}, map[]);
    assert Run(max, empty, []) == empty && Initial(empty);
    var upload := Upload("text", "file");
    Transactions.StartedComputes();
    StartedSteps();
    NextIsReachable(max, empty, Do(Transactions.Create("i", 1, 7)));
    var created := Next(max, empty, Do(Transactions.Create("i", 1, 7)));
    NextIsReachable(max, created, Do(Transactions.Put("i", En, 1, upload)));
    var put := Next(max, created, Do(Transactions.Put("i", En, 1, upload)));
    NextIsReachable(max, put, Do(Transactions.Publish("i", En, 2, true)));
  }

  lemma StartedSteps()
    ensures var created := Transactions.Next(Transactions.Fresh(), Transactions.Create("i", 1, 7));
      var put := Transactions.Next(created, Transactions.Put("i", En, 1, Upload("text", "file")));
      Transactions.Next(put, Transactions.Publish("i", En, 2, true)) == Transactions.Started()
  {
    hide CreateIssue, PutVersion, StartPublish;
    Transactions.StartedComputes();
  }

  lemma StartedIsPublished(max: nat)
    ensures var published := DoComplete(max, Obtained(System(Transactions.Started(), {}, {}, map[]), PublishKey("i", En, 3)), PublishKey("i", En, 3), Fine);
      && published.attempts == map[] && published.revoked == {}
      && "i" in published.b.issues && En in published.b.issues["i"].editions
      && published.b.issues["i"].version == 3 && !Busy(published.b.issues["i"].status)
      && published.b.issues["i"].editions[En].grant == Some(Grant("i", En, 3))
      && published.b.issues["i"].editions[En].retiringGrant.None?
      && PublishKey("i", En, 4) !in published.b.outbox
  {
    hide Advance;
    var key := PublishKey("i", En, 3);
    var started := System(Transactions.Started(), {}, {}, map[]);
    var ready := Obtained(started, key);
    assert CanFinish(ready, key) && ready.attempts == map[key := Attempt(Granted, true)];
    CompletionOutbox(ready.b, "i", En, 3);
    assert CompletePublish(ready.b, "i", En, 3).Ok?;
    assert DoComplete(max, ready, key, Fine).attempts == map[];
  }

  lemma PublishedStartsAgain(b: Tables)
    requires "i" in b.issues && En in b.issues["i"].editions && b.issues["i"].version == 3 && !Busy(b.issues["i"].status)
    requires b.issues["i"].editions[En].grant == Some(Grant("i", En, 3)) && b.issues["i"].editions[En].retiringGrant.None?
    requires PublishKey("i", En, 4) !in b.outbox
    ensures var after := Transactions.Next(b, Transactions.Publish("i", En, 3, false));
      && LiveAt(after.outbox, PublishKey("i", En, 4))
      && Records(after, Grant("i", En, 3)) && RetiringAt(after, "i", En).None?
  {
  }

  /** The grant call of an attempt takes effect but reports an error. */
  function LoseGrant(max: nat, s: System, key: EventKey): System {
    DoSettle(DoCreateGrant(DoClaim(s, key), key, LostAfter), key, Fine)
  }

  /** On the next claim the asset turns out unusable, and the event fails. */
  function RejectAsset(max: nat, s: System, key: EventKey): System {
    DoSettle(DoGetAsset(max, DoClaim(s, key), key, Terminal), key, Fine)
  }

  /** From every reachable state in which an edition is put up for publication: a lost reply and
      an asset gone bad lead to a leak. */
  lemma GivingUpLeaks(max: nat, s: System, key: EventKey)
    requires Reachable(max, s) && key.PublishKey? && LiveAt(s.b.outbox, key) && key !in s.attempts
    ensures var after := RejectAsset(max, LoseGrant(max, s, key), key); Reachable(max, after) && Leaked(after, GrantOf(key))
  {
    hide SystemInv, Leaked, Reachable, DoSettle, LeakStep;
    var lost := DoCreateGrant(DoClaim(s, key), key, LostAfter);
    NextIsReachable(max, s, ClaimNext(key));
    NextIsReachable(max, DoClaim(s, key), CreateGrant(key, LostAfter));
    NextIsReachable(max, lost, Settle(key, Fine));
    var waiting := LoseGrant(max, s, key);
    LostIsWaiting(max, s, key);
    var rejected := DoGetAsset(max, DoClaim(waiting, key), key, Terminal);
    NextIsReachable(max, waiting, ClaimNext(key));
    NextIsReachable(max, DoClaim(waiting, key), GetAsset(key, Terminal));
    NextIsReachable(max, rejected, Settle(key, Fine));
    RejectedGivesUp(max, waiting, key);
    ReachableHolds(max, rejected);
    LeaksExactlyWhen(max, rejected, Settle(key, Fine), GrantOf(key));
  }

  lemma LostIsWaiting(max: nat, s: System, key: EventKey)
    requires key.PublishKey? && LiveAt(s.b.outbox, key) && key !in s.attempts
    ensures var waiting := LoseGrant(max, s, key);
      LiveAt(waiting.b.outbox, key) && key !in waiting.attempts && GrantOf(key) in waiting.granted
  {
  }

  lemma RejectedGivesUp(max: nat, s: System, key: EventKey)
    requires key.PublishKey? && LiveAt(s.b.outbox, key) && key !in s.attempts && GrantOf(key) in s.granted
    ensures LeakStep(DoGetAsset(max, DoClaim(s, key), key, Terminal), Settle(key, Fine), GrantOf(key))
  {
  }
}
