/** What every step on a news item keeps, with any fault and any interleaving. */
module NewsInvariants {
  import opened ContentModel
  import opened News

  predicate LiveAt(outbox: Outbox, v: Version) {
    PublishKey(v) in outbox && LiveEvent(outbox[PublishKey(v)])
  }

  predicate DeliveredAt(outbox: Outbox, v: Version) {
    PublishKey(v) in outbox && outbox[PublishKey(v)].status.Delivered?
  }

  predicate FailedAt(outbox: Outbox, v: Version) {
    PublishKey(v) in outbox && outbox[PublishKey(v)].status.FailedEvent?
  }

  /** The publication of the grant's version was to publish an asset for its usage. */
  predicate Planned(outbox: Outbox, g: Grant) {
    PublishKey(g.version) in outbox && g.usage in outbox[PublishKey(g.version)].covers
  }

  predicate Records(recorded: map<Usage, Recorded>, g: Grant) {
    g.usage in recorded && recorded[g.usage].grant == g
  }

  function RecordedOf(entry: Option<Entry>): map<Usage, Recorded> {
    if entry.Some? then entry.value.recorded else map[]
  }

  /** Rows, recorded grants and the published version describe one revision. */
  ghost predicate PublicInv(r: Rules, e: Entry) {
    match e.publishedVersion
    case None => e.rows == map[] && e.recorded == map[]
    case Some(w) =>
      && w <= e.version && w in e.revisions && e.revisions[w].translations != map[]
      && e.recorded == GrantsFor(e.revisions[w].covers, w)
      && (e.rows != map[] ==> e.rows == RowsOf(r, e.revisions[w], e.recorded, w))
  }

  ghost predicate StatusInv(r: Rules, e: Entry) {
    && (forall w | w in e.revisions :: w <= e.version)
    && !e.status.PublishFailed? && !e.status.PendingRemoval?
    && (e.status.Draft? || e.status.Publishing? || e.status.Published? ==>
          e.version in e.revisions && e.revisions[e.version] == e.content)
    && (e.status.Publishing? ==> Publishable(r, e.content))
    && (e.status.Published? <==> e.publishedVersion == Some(e.version))
    && (e.status.Published? ==> e.rows != map[])
    && (e.status.Unpublishing? || e.status.UnpublishFailed? ==> e.rows == map[] && e.publishedVersion.Some?)
    && (e.status.Unpublished? ==> e.publishedVersion.None?)
  }

  /** Live grants are not revoked; the grants of an item whose withdrawal failed all are. */
  ghost predicate ExposureInv(e: Entry, revoked: set<Grant>) {
    && (e.rows != map[] ==> forall u | u in e.recorded :: e.recorded[u].grant !in revoked)
    && (e.rows == map[] && !e.status.Unpublishing? ==> forall u | u in e.recorded :: e.recorded[u].grant in revoked)
  }

  ghost predicate EventInv(entry: Option<Entry>, key: Key, event: Event) {
    match key
    case PublishKey(v) =>
      && event.revoking == map[]
      && (entry.Some? ==> v <= entry.value.version && v in entry.value.revisions && event.covers == entry.value.revisions[v].covers)
      && (LiveEvent(event) ==> entry.Some? && entry.value.status.Publishing? && entry.value.version == v)
    case UnpublishKey(v) =>
      && event.covers == map[]
      && (entry.Some? ==> v <= entry.value.version)
      && (LiveEvent(event) ==>
            entry.Some? && entry.value.status.Unpublishing? && entry.value.version == v && event.revoking == entry.value.recorded)
    case RevokeKey(g) => event.revoking.Keys == {g.usage} && event.revoking[g.usage].grant == g
    case CompensateKey(g) => event.revoking.Keys == {g.usage} && event.revoking[g.usage].grant == g
  }

  ghost predicate EventsInv(entry: Option<Entry>, outbox: Outbox) {
    && (forall key | key in outbox :: EventInv(entry, key, outbox[key]))
    && (entry.Some? && entry.value.status.Publishing? ==> LiveAt(outbox, entry.value.version))
    && (entry.Some? && entry.value.status.Unpublishing? ==>
          UnpublishKey(entry.value.version) in outbox && LiveEvent(outbox[UnpublishKey(entry.value.version)]))
  }

  /** Every grant is accounted for: who created it, who is to revoke it, who forgot it. */
  ghost predicate LedgerInv(outbox: Outbox, recorded: map<Usage, Recorded>, granted: set<Grant>, revoked: set<Grant>, dropped: set<Grant>) {
    && (forall g | g in granted :: Planned(outbox, g))
    && (forall g | Planned(outbox, g) && DeliveredAt(outbox, g.version) ::
          g in granted && (Records(recorded, g) || RevokeKey(g) in outbox || g in revoked))
    && (forall g | RevokeKey(g) in outbox :: Planned(outbox, g) && DeliveredAt(outbox, g.version))
    && (forall g | CompensateKey(g) in outbox :: g in granted && FailedAt(outbox, g.version))
    && (forall g | Records(recorded, g) :: Planned(outbox, g) && DeliveredAt(outbox, g.version) && RevokeKey(g) !in outbox)
    && (forall g | g in revoked :: g in granted && (DeliveredAt(outbox, g.version) || CompensateKey(g) in outbox))
    && (forall g | Planned(outbox, g) && FailedAt(outbox, g.version) :: CompensateKey(g) in outbox <==> g !in dropped)
    && (forall g | g in dropped :: Planned(outbox, g) && FailedAt(outbox, g.version))
    && (forall g | RevokeKey(g) in outbox && !LiveEvent(outbox[RevokeKey(g)]) :: g in revoked)
    && (forall g | CompensateKey(g) in outbox && !LiveEvent(outbox[CompensateKey(g)]) :: g in revoked)
  }

  ghost predicate PublishAttemptInv(v: Version, a: Attempt, event: Event, granted: set<Grant>, dropped: set<Grant>) {
    && a.done <= event.covers.Keys
    && (forall u | u in a.done :: Grant(u, v) in granted && Grant(u, v) !in dropped)
    && (a.phase.Claimed? || a.phase.Compensating? ==> event.status.Processing?)
    && (a.phase.Confirming? ==> event.status.Processing? || event.status.Delivered?)
    && (a.phase.Settling? && !a.phase.verdict.ToRetry? ==> event.status.Processing? && a.done == {})
  }

  ghost predicate RevokeAttemptInv(a: Attempt, event: Event, revoked: set<Grant>) {
    && a.done <= event.revoking.Keys
    && (forall u | u in a.done :: event.revoking[u].grant in revoked)
    && (a.phase.Claimed? || a.phase.Settling?)
    && (a.phase.Claimed? ==> event.status.Processing?)
    && (a.phase.Settling? ==> !a.phase.verdict.ToDefer?)
    && (a.phase.Settling? && a.phase.verdict.ToFail? ==> a.done == event.revoking.Keys)
  }

  ghost predicate AttemptInv(t: Track, key: Key) {
    key in t.attempts ==>
      && key in t.item.outbox
      && if key.PublishKey? then PublishAttemptInv(key.version, t.attempts[key], t.item.outbox[key], t.granted, t.dropped)
         else RevokeAttemptInv(t.attempts[key], t.item.outbox[key], t.revoked)
  }

  ghost predicate EntryInv(r: Rules, e: Entry, revoked: set<Grant>) {
    StatusInv(r, e) && PublicInv(r, e) && ExposureInv(e, revoked)
  }

  ghost predicate Inv(r: Rules, t: Track) {
    && (t.item.entry.Some? ==> EntryInv(r, t.item.entry.value, t.revoked))
    && EventsInv(t.item.entry, t.item.outbox)
    && LedgerInv(t.item.outbox, RecordedOf(t.item.entry), t.granted, t.revoked, t.dropped)
    && forall key | key in t.attempts :: AttemptInv(t, key)
  }

  // ---------------------------------------------------------------- administrators keep it

  /** A write of the entry alone. */
  lemma EditKeeps(r: Rules, t: Track, after: Track)
    requires Inv(r, t) && t.item.entry.Some? && after == t.(item := t.item.(entry := after.item.entry))
    requires after.item.entry.Some? && !Busy(t.item.entry.value.status)
    requires EntryInv(r, after.item.entry.value, t.revoked)
    requires var e, n := t.item.entry.value, after.item.entry.value;
      && n.recorded == e.recorded && e.version <= n.version && !Busy(n.status)
      && forall w | w in e.revisions :: w in n.revisions && n.revisions[w] == e.revisions[w]
    ensures Inv(r, after)
  {
    forall key | key in t.item.outbox ensures EventInv(after.item.entry, key, t.item.outbox[key]) {
      assert EventInv(t.item.entry, key, t.item.outbox[key]);
    }
    forall key | key in t.attempts ensures AttemptInv(after, key) { assert AttemptInv(t, key); }
  }

  lemma UpdateKeeps(r: Rules, t: Track, expected: Version, taken: set<string>, content: NewsContent)
    requires Inv(r, t) && Update(t.item, expected, taken, content).Ok?
    ensures Inv(r, t.(item := Update(t.item, expected, taken, content).value))
  {
    EditKeeps(r, t, t.(item := Update(t.item, expected, taken, content).value));
  }

  lemma StartPublishKeeps(r: Rules, t: Track, expected: Version)
    requires Inv(r, t) && StartPublish(r, t.item, expected).Ok?
    ensures Inv(r, t.(item := StartPublish(r, t.item, expected).value))
  {
    hide LedgerInv, EventsInv, AttemptInv;
    var after := t.(item := StartPublish(r, t.item, expected).value);
    StartedKeepsEvents(t, after.item, PublishKey(expected + 1));
    AddedKeepsLedger(t, after.item.outbox, PublishKey(expected + 1));
    AddedKeepsAttempts(t, after, PublishKey(expected + 1));
  }

  /** An idle entry moved to its next version, busy with a new event. */
  lemma StartedKeepsEvents(t: Track, after: Item, key: Key)
    requires EventsInv(t.item.entry, t.item.outbox) && t.item.entry.Some? && after.entry.Some?
    requires var e, n := t.item.entry.value, after.entry.value;
      && !Busy(e.status) && Busy(n.status) && n.version == e.version + 1
      && key == (if n.status.Publishing? then PublishKey(n.version) else UnpublishKey(n.version))
      && forall w | w in e.revisions :: w in n.revisions && n.revisions[w] == e.revisions[w]
    requires key !in t.item.outbox && key in after.outbox && after.outbox == t.item.outbox[key := after.outbox[key]]
    requires LiveEvent(after.outbox[key]) && EventInv(after.entry, key, after.outbox[key])
    ensures EventsInv(after.entry, after.outbox)
  {
    forall k | k in after.outbox ensures EventInv(after.entry, k, after.outbox[k]) {
      if k != key { assert EventInv(t.item.entry, k, t.item.outbox[k]); }
    }
  }

  lemma AddedKeepsAttempts(t: Track, after: Track, key: Key)
    requires forall k | k in t.attempts :: AttemptInv(t, k)
    requires key !in t.item.outbox && key in after.item.outbox && after.item.outbox == t.item.outbox[key := after.item.outbox[key]]
    requires after == t.(item := after.item)
    ensures forall k | k in after.attempts :: AttemptInv(after, k)
  {
    forall k | k in after.attempts ensures AttemptInv(after, k) { assert AttemptInv(t, k); }
  }

  /** A new life-cycle event says nothing about any grant yet. */
  lemma AddedKeepsLedger(t: Track, after: Outbox, key: Key)
    requires LedgerInv(t.item.outbox, RecordedOf(t.item.entry), t.granted, t.revoked, t.dropped)
    requires key !in t.item.outbox && (key.PublishKey? || key.UnpublishKey?)
    requires key in after && after == t.item.outbox[key := after[key]] && LiveEvent(after[key])
    ensures LedgerInv(after, RecordedOf(t.item.entry), t.granted, t.revoked, t.dropped)
  {
    forall v ensures DeliveredAt(after, v) == DeliveredAt(t.item.outbox, v) && FailedAt(after, v) == FailedAt(t.item.outbox, v) {}
    forall g ensures Planned(t.item.outbox, g) ==> Planned(after, g) {}
    forall g | Planned(after, g) && (DeliveredAt(after, g.version) || FailedAt(after, g.version)) ensures Planned(t.item.outbox, g) {}
  }

  lemma StartUnpublishKeeps(r: Rules, t: Track, expected: Version)
    requires Inv(r, t) && StartUnpublish(t.item, expected).Ok?
    ensures Inv(r, t.(item := StartUnpublish(t.item, expected).value))
  {
    hide LedgerInv, EventsInv, AttemptInv;
    var after := t.(item := StartUnpublish(t.item, expected).value);
    StartedKeepsEvents(t, after.item, UnpublishKey(expected + 1));
    AddedKeepsLedger(t, after.item.outbox, UnpublishKey(expected + 1));
    AddedKeepsAttempts(t, after, UnpublishKey(expected + 1));
  }

  lemma DeleteKeeps(r: Rules, t: Track, expected: Version)
    requires Inv(r, t) && Delete(t.item, expected).Ok?
    ensures Inv(r, t.(item := Delete(t.item, expected).value))
  {
    var after := t.(item := Delete(t.item, expected).value);
    forall k | k in after.item.outbox ensures EventInv(after.item.entry, k, after.item.outbox[k]) {
      assert EventInv(t.item.entry, k, t.item.outbox[k]);
    }
    forall k | k in t.attempts ensures AttemptInv(after, k) { assert AttemptInv(t, k); }
  }

  lemma ApplyKeeps(r: Rules, t: Track, expected: Version, taken: set<string>, op: Op)
    requires Inv(r, t) && Apply(r, t.item, expected, taken, op).Ok?
    ensures Inv(r, t.(item := Apply(r, t.item, expected, taken, op).value))
  {
    hide Inv, Update, StartPublish, StartUnpublish, Delete;
    match op
    case OpUpdate(content) => UpdateKeeps(r, t, expected, taken, content);
    case OpRestore(w) => UpdateKeeps(r, t, expected, taken, Merged(t.item.entry.value.revisions[w], t.item.entry.value.content));
    case OpStartPublish => StartPublishKeeps(r, t, expected);
    case OpStartUnpublish => StartUnpublishKeeps(r, t, expected);
    case OpDelete => DeleteKeeps(r, t, expected);
  }

  // ---------------------------------------------------------------- the worker keeps it

  /** Changing one attempt, with everything else as it was or, where attempts look, grown. */
  lemma AttemptsKeep(before: Track, after: Track, key: Key)
    requires forall k | k in before.attempts :: AttemptInv(before, k)
    requires forall k | k in after.attempts && k != key :: k in before.attempts && after.attempts[k] == before.attempts[k]
    requires forall k | k in before.item.outbox && k != key :: k in after.item.outbox && after.item.outbox[k] == before.item.outbox[k]
    requires before.granted <= after.granted && before.revoked <= after.revoked
    requires forall g | g in after.dropped && g !in before.dropped :: key == PublishKey(g.version)
    requires AttemptInv(after, key)
    ensures forall k | k in after.attempts :: AttemptInv(after, k)
  {
    forall k | k in after.attempts ensures AttemptInv(after, k) {
      if k != key { assert AttemptInv(before, k); }
    }
  }

  lemma MoveKeeps(r: Rules, t: Track, key: Key, after: Track)
    requires Inv(r, t) && after == t.(attempts := after.attempts)
    requires forall k | k in after.attempts && k != key :: k in t.attempts && after.attempts[k] == t.attempts[k]
    requires AttemptInv(after, key)
    ensures Inv(r, after)
  {
    hide EntryInv, EventsInv, LedgerInv;
    AttemptsKeep(t, after, key);
  }

  /** Writing one event's status where neither ledger nor entry depends on it. */
  lemma StatusKeeps(r: Rules, t: Track, key: Key, status: EventStatus, attempts: nat, after: Track)
    requires Inv(r, t) && key in t.item.outbox
    requires status.Waiting? || status.Processing? ==> LiveEvent(t.item.outbox[key])
    requires !status.Waiting? && !status.Processing? ==>
               (key.RevokeKey? || key.CompensateKey?) && key.grant in t.revoked
    requires after == t.(item := t.item.(outbox := Written(t.item.outbox, key, status, attempts)), attempts := after.attempts)
    requires forall k | k in after.attempts && k != key :: k in t.attempts && after.attempts[k] == t.attempts[k]
    requires AttemptInv(after, key)
    ensures Inv(r, after)
  {
    hide EntryInv, EventsInv, LedgerInv, RecordedOf;
    StatusKeepsEvents(t.item.entry, t.item.outbox, key, status, attempts);
    StatusKeepsLedger(t, key, status, attempts);
    AttemptsKeep(t, after, key);
  }

  lemma StatusKeepsEvents(entry: Option<Entry>, outbox: Outbox, key: Key, status: EventStatus, attempts: nat)
    requires EventsInv(entry, outbox) && key in outbox
    requires status.Waiting? || status.Processing? ==> LiveEvent(outbox[key])
    requires !status.Waiting? && !status.Processing? ==> key.RevokeKey? || key.CompensateKey?
    ensures EventsInv(entry, Written(outbox, key, status, attempts))
  {
    var after := Written(outbox, key, status, attempts);
    forall k | k in after ensures EventInv(entry, k, after[k]) { assert EventInv(entry, k, outbox[k]); }
  }

  lemma StatusKeepsLedger(t: Track, key: Key, status: EventStatus, attempts: nat)
    requires LedgerInv(t.item.outbox, RecordedOf(t.item.entry), t.granted, t.revoked, t.dropped) && key in t.item.outbox
    requires status.Waiting? || status.Processing? ==> LiveEvent(t.item.outbox[key])
    requires !status.Waiting? && !status.Processing? ==>
               (key.RevokeKey? || key.CompensateKey?) && key.grant in t.revoked
    ensures LedgerInv(Written(t.item.outbox, key, status, attempts), RecordedOf(t.item.entry), t.granted, t.revoked, t.dropped)
  {
    hide DeliveredAt, FailedAt, Planned, Records, RecordedOf;
    WritingKeepsFates(t.item.outbox, key, status, attempts);
  }

  /** Publications are delivered, failed and planned as before. */
  lemma WritingKeepsFates(outbox: Outbox, key: Key, status: EventStatus, attempts: nat)
    requires key in outbox
    requires key.PublishKey? ==> (status.Waiting? || status.Processing?) && LiveEvent(outbox[key])
    ensures var after := Written(outbox, key, status, attempts);
      && (forall v :: DeliveredAt(after, v) == DeliveredAt(outbox, v))
      && (forall v :: FailedAt(after, v) == FailedAt(outbox, v))
      && (forall g :: Planned(after, g) == Planned(outbox, g))
  {
  }

  lemma ClaimKeeps(r: Rules, t: Track, key: Key)
    requires Inv(r, t)
    ensures Inv(r, DoClaim(t, key))
  {
    hide EntryInv, EventsInv, LedgerInv;
    if key in t.item.outbox && key !in t.attempts && LiveEvent(t.item.outbox[key]) {
      StatusKeeps(r, t, key, Processing, t.item.outbox[key].attempts + 1, DoClaim(t, key));
    }
  }

  lemma GetAssetKeeps(r: Rules, max: nat, t: Track, key: Key, reply: AssetReply)
    requires Inv(r, t)
    ensures Inv(r, DoGetAsset(max, t, key, reply))
  {
    hide EntryInv, EventsInv, LedgerInv;
    if At(t, key, Claimed) && key.PublishKey? {
      assert AttemptInv(t, key);
      MoveKeeps(r, t, key, DoGetAsset(max, t, key, reply));
    }
  }

  lemma CreateGrantKeeps(r: Rules, max: nat, t: Track, key: Key, fault: Fault)
    requires Inv(r, t)
    ensures Inv(r, DoCreateGrant(max, t, key, fault))
  {
    hide EntryInv, EventsInv, LedgerInv;
    if At(t, key, Claimed) && key.PublishKey? && t.attempts[key].done < Wanted(key, t.item.outbox[key]) {
      assert AttemptInv(t, key);
      var g := Grant(NextUsage(Wanted(key, t.item.outbox[key]), t.attempts[key].done), key.version);
      var grown := if fault.LostBefore? then t else t.(granted := t.granted + {g});
      GrantingKeeps(r, t, g);
      LiveIsNotDropped(r, t, key.version);
      MoveKeeps(r, grown, key, DoCreateGrant(max, t, key, fault));
    }
  }

  lemma GrantingKeeps(r: Rules, t: Track, g: Grant)
    requires Inv(r, t) && Planned(t.item.outbox, g)
    ensures Inv(r, t.(granted := t.granted + {g}))
  {
    hide EntryInv, EventsInv, LedgerInv, RecordedOf, Planned;
    var after := t.(granted := t.granted + {g});
    GrantingKeepsLedger(t, g.version, g.usage);
    forall k | k in t.attempts ensures AttemptInv(after, k) { assert AttemptInv(t, k); }
  }

  lemma LiveIsNotDropped(r: Rules, t: Track, v: Version)
    requires Inv(r, t) && LiveAt(t.item.outbox, v)
    ensures forall u :: Grant(u, v) !in t.dropped
  {
    hide EntryInv, EventsInv, AttemptInv;
  }

  lemma GrantingKeepsLedger(t: Track, v: Version, u: Usage)
    requires LedgerInv(t.item.outbox, RecordedOf(t.item.entry), t.granted, t.revoked, t.dropped)
    requires Planned(t.item.outbox, Grant(u, v))
    ensures LedgerInv(t.item.outbox, RecordedOf(t.item.entry), t.granted + {Grant(u, v)}, t.revoked, t.dropped)
  {
  }

  /** A grant may be revoked once nothing shows it and its publication is over. */
  lemma RevocationKeeps(r: Rules, t: Track, g: Grant)
    requires Inv(r, t) && g in t.granted && (DeliveredAt(t.item.outbox, g.version) || CompensateKey(g) in t.item.outbox)
    requires Records(RecordedOf(t.item.entry), g) ==> t.item.entry.value.rows == map[]
    ensures Inv(r, t.(revoked := t.revoked + {g}))
  {
    hide EventsInv, LedgerInv, StatusInv, PublicInv;
    var after := t.(revoked := t.revoked + {g});
    if t.item.entry.Some? { GrantsAreTheirOwn(r, t.item.entry.value); }
    RevokedLedger(t, g);
    RevokingKeepsAttempts(t, g);
    hide AttemptInv;
  }

  lemma RevokedLedger(t: Track, g: Grant)
    requires LedgerInv(t.item.outbox, RecordedOf(t.item.entry), t.granted, t.revoked, t.dropped)
    requires g in t.granted && (DeliveredAt(t.item.outbox, g.version) || CompensateKey(g) in t.item.outbox)
    ensures LedgerInv(t.item.outbox, RecordedOf(t.item.entry), t.granted, t.revoked + {g}, t.dropped)
  {
    hide DeliveredAt, FailedAt, Planned, Records, RecordedOf;
  }

  lemma RevokingKeepsAttempts(t: Track, g: Grant)
    requires forall k | k in t.attempts :: AttemptInv(t, k)
    ensures forall k | k in t.attempts :: AttemptInv(t.(revoked := t.revoked + {g}), k)
  {
    forall k | k in t.attempts ensures AttemptInv(t.(revoked := t.revoked + {g}), k) { assert AttemptInv(t, k); }
  }

  lemma GrantsAreTheirOwn(r: Rules, e: Entry)
    requires PublicInv(r, e)
    ensures forall u | u in e.recorded :: e.recorded[u].grant.usage == u && Records(e.recorded, e.recorded[u].grant)
  {
  }

  /** What a live revoking event may revoke. */
  lemma TargetIsRevocable(r: Rules, t: Track, key: Key, u: Usage)
    requires Inv(r, t) && key in t.item.outbox && !key.PublishKey? && u in t.item.outbox[key].revoking
    requires key.UnpublishKey? ==> LiveEvent(t.item.outbox[key])
    ensures var g := t.item.outbox[key].revoking[u].grant;
      && g in t.granted && (DeliveredAt(t.item.outbox, g.version) || CompensateKey(g) in t.item.outbox)
      && (Records(RecordedOf(t.item.entry), g) ==> t.item.entry.value.rows == map[])
  {
    assert EventInv(t.item.entry, key, t.item.outbox[key]);
    if key.UnpublishKey? { GrantsAreTheirOwn(r, t.item.entry.value); }
  }

  lemma RevokeNextKeeps(r: Rules, t: Track, key: Key, fault: Fault)
    requires Inv(r, t)
    ensures Inv(r, DoRevokeNext(t, key, fault))
  {
    hide EntryInv, EventsInv, LedgerInv;
    if At(t, key, Claimed) && !key.PublishKey? && t.attempts[key].done < Wanted(key, t.item.outbox[key]) {
      assert AttemptInv(t, key);
      var u := NextUsage(Wanted(key, t.item.outbox[key]), t.attempts[key].done);
      TargetIsRevocable(r, t, key, u);
      var after := DoRevokeNext(t, key, fault);
      if fault.LostBefore? {
        MoveKeeps(r, t, key, after);
      } else {
        RevocationKeeps(r, t, t.item.outbox[key].revoking[u].grant);
        MoveKeeps(r, t.(revoked := after.revoked), key, after);
      }
    }
  }

  // ---------------------------------------------------------------- completion

  /** The grants of an earlier publication all differ from those of version `v`. */
  lemma DisplacedOutbox(outbox: Outbox, prior: map<Usage, Recorded>, assets: map<Usage, Recorded>)
    requires forall u | u in prior :: prior[u].grant.usage == u && !(u in assets && assets[u].grant == prior[u].grant)
    ensures var after := Displaced(Displaced(outbox, prior, assets, Detail), prior, assets, HomePage);
      && (forall k | k in outbox :: k in after && after[k] == outbox[k])
      && (forall g | Records(prior, g) :: RevokeKey(g) in after)
      && (forall k | k in after && k !in outbox ::
            k.RevokeKey? && Records(prior, k.grant) && after[k] == Event(Waiting, 0, map[], map[k.grant.usage := prior[k.grant.usage]]))
  {
    forall g | Records(prior, g)
      ensures RevokeKey(g) in Displaced(Displaced(outbox, prior, assets, Detail), prior, assets, HomePage)
    {
      assert g.usage.Detail? || g.usage.HomePage?;
    }
  }

  /** The ledger once version `v` was delivered with `assets` recorded in place of `prior`. */
  lemma DeliveryKeepsLedger(before: Outbox, after: Outbox, v: Version, prior: map<Usage, Recorded>, assets: map<Usage, Recorded>, t: Track)
    requires LedgerInv(before, prior, t.granted, t.revoked, t.dropped)
    requires !DeliveredAt(before, v) && !FailedAt(before, v)
    requires forall w :: DeliveredAt(after, w) == (DeliveredAt(before, w) || w == v)
    requires forall w :: FailedAt(after, w) == FailedAt(before, w)
    requires forall g :: Planned(after, g) == Planned(before, g)
    requires forall g :: Records(assets, g) == (g.version == v && Planned(before, g))
    requires forall g | Records(assets, g) :: g in t.granted
    requires forall g :: RevokeKey(g) in after <==> RevokeKey(g) in before || Records(prior, g)
    requires forall g | RevokeKey(g) in after :: if RevokeKey(g) in before then after[RevokeKey(g)] == before[RevokeKey(g)] else LiveEvent(after[RevokeKey(g)])
    requires forall g :: CompensateKey(g) in after <==> CompensateKey(g) in before
    requires forall g | CompensateKey(g) in after :: after[CompensateKey(g)] == before[CompensateKey(g)]
    ensures LedgerInv(after, assets, t.granted, t.revoked, t.dropped)
  {
    hide DeliveredAt, FailedAt, Planned, Records, LiveEvent;
  }

  lemma CompletionKeepsLedger(t: Track, v: Version, after: Outbox, assets: map<Usage, Recorded>)
    requires LedgerInv(t.item.outbox, RecordedOf(t.item.entry), t.granted, t.revoked, t.dropped)
    requires LiveAt(t.item.outbox, v) && assets == GrantsFor(t.item.outbox[PublishKey(v)].covers, v)
    requires forall u | u in assets :: assets[u].grant in t.granted
    requires var marked := Marked(t.item.outbox, PublishKey(v), Delivered);
      && (forall k | k in marked :: k in after && after[k] == marked[k])
      && (forall g | Records(RecordedOf(t.item.entry), g) :: RevokeKey(g) in after)
      && (forall k | k in after && k !in marked ::
            k.RevokeKey? && Records(RecordedOf(t.item.entry), k.grant) && LiveEvent(after[k]))
    ensures LedgerInv(after, assets, t.granted, t.revoked, t.dropped)
  {
    hide LedgerInv, RecordedOf;
    DeliveryKeepsLedger(t.item.outbox, after, v, RecordedOf(t.item.entry), assets, t);
  }

  lemma PublishCommitKeeps(r: Rules, t: Track, v: Version)
    requires Inv(r, t) && At(t, PublishKey(v), Claimed)
    requires t.attempts[PublishKey(v)].done == t.item.outbox[PublishKey(v)].covers.Keys
    requires Completed(r, t.item, PublishKey(v)).Ok?
    ensures var item := Completed(r, t.item, PublishKey(v)).value;
      && Inv(r, End(t.(item := item), PublishKey(v)))
      && PublishKey(v) in item.outbox && item.outbox[PublishKey(v)] == t.item.outbox[PublishKey(v)].(status := Delivered)
  {
    hide EntryInv, EventsInv, LedgerInv;
    var key := PublishKey(v);
    assert AttemptInv(t, key);
    var item := Completed(r, t.item, key).value;
    var assets := GrantsFor(t.item.outbox[key].covers, v);
    CompletionEffect(r, t, v);
    hide CompletePublish, Displaced;
    forall u | u in assets ensures assets[u].grant in t.granted {}
    CompletionKeepsLedger(t, v, item.outbox, assets);
    CompletionKeepsEntry(r, t, v);
    CompletionKeepsEvents(r, t, v, item);
    AttemptsKeep(t, End(t.(item := item), key), key);
  }

  /** What the commit of a publication does to entry and outbox. */
  lemma CompletionEffect(r: Rules, t: Track, v: Version)
    requires Inv(r, t) && LiveAt(t.item.outbox, v) && Completed(r, t.item, PublishKey(v)).Ok?
    ensures var item := Completed(r, t.item, PublishKey(v)).value;
      var assets := GrantsFor(t.item.outbox[PublishKey(v)].covers, v);
      var marked := Marked(t.item.outbox, PublishKey(v), Delivered);
      && t.item.entry.Some? && t.item.entry.value.status.Publishing? && t.item.entry.value.version == v
      && item.entry == Some(Live(r, t.item.entry.value, assets))
      && (forall k | k in marked :: k in item.outbox && item.outbox[k] == marked[k])
      && (forall g | Records(RecordedOf(t.item.entry), g) :: RevokeKey(g) in item.outbox)
      && (forall k | k in item.outbox && k !in marked ::
            && k.RevokeKey? && Records(RecordedOf(t.item.entry), k.grant) && LiveEvent(item.outbox[k])
            && item.outbox[k].revoking.Keys == {k.grant.usage} && item.outbox[k].revoking[k.grant.usage].grant == k.grant)
  {
    hide LedgerInv, ExposureInv;
    var e := t.item.entry.value;
    var assets := GrantsFor(t.item.outbox[PublishKey(v)].covers, v);
    GrantsAreTheirOwn(r, e);
    DisplacedOutbox(Marked(t.item.outbox, PublishKey(v), Delivered), e.recorded, assets);
    hide Displaced;
  }

  lemma CompletionKeepsEntry(r: Rules, t: Track, v: Version)
    requires Inv(r, t) && LiveAt(t.item.outbox, v)
    requires t.item.entry.Some? && t.item.entry.value.status.Publishing? && t.item.entry.value.version == v
    ensures EntryInv(r, Live(r, t.item.entry.value, GrantsFor(t.item.outbox[PublishKey(v)].covers, v)), t.revoked)
  {
    var e := t.item.entry.value;
    var assets := GrantsFor(t.item.outbox[PublishKey(v)].covers, v);
    assert EventInv(t.item.entry, PublishKey(v), t.item.outbox[PublishKey(v)]);
    forall u | u in assets ensures assets[u].grant !in t.revoked {
      var g := assets[u].grant;
      assert g.version == v;
    }
    var l :| l in e.content.translations;
    assert l in RowsOf(r, e.content, assets, v);
  }

  lemma CompletionKeepsEvents(r: Rules, t: Track, v: Version, item: Item)
    requires EventsInv(t.item.entry, t.item.outbox) && LiveAt(t.item.outbox, v)
    requires t.item.entry.Some? && t.item.entry.value.status.Publishing? && t.item.entry.value.version == v
    requires item.entry.Some? && item.entry.value == Live(r, t.item.entry.value, item.entry.value.recorded)
    requires forall k | k in item.outbox ::
               if k == PublishKey(v) then item.outbox[k] == t.item.outbox[k].(status := Delivered)
               else if k in t.item.outbox then item.outbox[k] == t.item.outbox[k]
               else k.RevokeKey? && item.outbox[k].revoking.Keys == {k.grant.usage} && item.outbox[k].revoking[k.grant.usage].grant == k.grant
    ensures EventsInv(item.entry, item.outbox)
  {
    forall k | k in item.outbox ensures EventInv(item.entry, k, item.outbox[k]) {
      if k in t.item.outbox { assert EventInv(t.item.entry, k, t.item.outbox[k]); }
    }
  }

  lemma UnpublishCommitKeeps(r: Rules, t: Track, v: Version)
    requires Inv(r, t) && At(t, UnpublishKey(v), Claimed)
    requires t.attempts[UnpublishKey(v)].done == t.item.outbox[UnpublishKey(v)].revoking.Keys
    requires Completed(r, t.item, UnpublishKey(v)).Ok?
    ensures var item := Completed(r, t.item, UnpublishKey(v)).value;
      && Inv(r, End(t.(item := item), UnpublishKey(v)))
      && UnpublishKey(v) in item.outbox && item.outbox[UnpublishKey(v)] == t.item.outbox[UnpublishKey(v)].(status := Delivered)
  {
    hide EntryInv, EventsInv, LedgerInv, CompleteUnpublish, RecordedOf, Marked;
    var key := UnpublishKey(v);
    assert AttemptInv(t, key);
    var item := Completed(r, t.item, key).value;
    WithdrawalEffect(r, t, v);
    WithdrawalKeepsEvents(t, v);
    WithdrawalKeepsLedger(t, key);
    MarkedIs(t.item.outbox, key, Delivered);
    AttemptsKeep(t, End(t.(item := item), key), key);
  }

  lemma MarkedIs(outbox: Outbox, key: Key, status: EventStatus)
    requires key in outbox
    ensures Marked(outbox, key, status) == outbox[key := outbox[key].(status := status)]
  {
  }

  /** What the commit of a withdrawal does, once all its grants are revoked. */
  lemma WithdrawalEffect(r: Rules, t: Track, v: Version)
    requires t.item.entry.Some? ==> EntryInv(r, t.item.entry.value, t.revoked)
    requires EventsInv(t.item.entry, t.item.outbox) && CompleteUnpublish(t.item, v).Ok?
    requires UnpublishKey(v) in t.item.outbox && t.item.outbox[UnpublishKey(v)].status.Processing?
    requires forall u | u in t.item.outbox[UnpublishKey(v)].revoking :: t.item.outbox[UnpublishKey(v)].revoking[u].grant in t.revoked
    ensures var item := CompleteUnpublish(t.item, v).value;
      && item.entry.Some? && EntryInv(r, item.entry.value, t.revoked)
      && RecordedOf(item.entry) == map[] && item.outbox == Marked(t.item.outbox, UnpublishKey(v), Delivered)
    ensures forall g | Records(RecordedOf(t.item.entry), g) :: g in t.revoked
  {
    assert EventInv(t.item.entry, UnpublishKey(v), t.item.outbox[UnpublishKey(v)]);
  }

  lemma WithdrawalKeepsEvents(t: Track, v: Version)
    requires EventsInv(t.item.entry, t.item.outbox) && CompleteUnpublish(t.item, v).Ok?
    requires UnpublishKey(v) in t.item.outbox && LiveEvent(t.item.outbox[UnpublishKey(v)])
    ensures var item := CompleteUnpublish(t.item, v).value; EventsInv(item.entry, item.outbox)
  {
    var item := CompleteUnpublish(t.item, v).value;
    forall k | k in item.outbox ensures EventInv(item.entry, k, item.outbox[k]) {
      assert EventInv(t.item.entry, k, t.item.outbox[k]);
    }
  }

  lemma WithdrawalKeepsLedger(t: Track, key: Key)
    requires LedgerInv(t.item.outbox, RecordedOf(t.item.entry), t.granted, t.revoked, t.dropped)
    requires key in t.item.outbox && key.UnpublishKey?
    requires forall g | Records(RecordedOf(t.item.entry), g) :: g in t.revoked
    ensures LedgerInv(Marked(t.item.outbox, key, Delivered), map[], t.granted, t.revoked, t.dropped)
  {
    var after := Marked(t.item.outbox, key, Delivered);
    forall w ensures DeliveredAt(after, w) == DeliveredAt(t.item.outbox, w) && FailedAt(after, w) == FailedAt(t.item.outbox, w) {}
    forall g ensures Planned(after, g) == Planned(t.item.outbox, g) {}
  }

  lemma CommitKeeps(r: Rules, t: Track, key: Key)
    requires Inv(r, t) && At(t, key, Claimed) && t.attempts[key].done == Wanted(key, t.item.outbox[key])
    requires Completed(r, t.item, key).Ok?
    ensures var item := Completed(r, t.item, key).value;
      && Inv(r, End(t.(item := item), key))
      && key in item.outbox && item.outbox[key] == t.item.outbox[key].(status := Delivered)
  {
    hide EntryInv, LedgerInv;
    match key
    case PublishKey(v) => PublishCommitKeeps(r, t, v);
    case UnpublishKey(v) => UnpublishCommitKeeps(r, t, v);
    case _ =>
      assert AttemptInv(t, key);
      assert EventInv(t.item.entry, key, t.item.outbox[key]);
      assert key.grant.usage in t.attempts[key].done;
      StatusKeeps(r, t, key, Delivered, t.item.outbox[key].attempts, End(t.(item := Completed(r, t.item, key).value), key));
  }

  lemma CompleteKeeps(r: Rules, max: nat, t: Track, key: Key, fault: Fault)
    requires Inv(r, t)
    ensures Inv(r, DoComplete(r, max, t, key, fault))
  {
    hide EntryInv, EventsInv, LedgerInv, Completed;
    if At(t, key, Claimed) && t.attempts[key].done == Wanted(key, t.item.outbox[key]) {
      assert AttemptInv(t, key);
      var after := DoComplete(r, max, t, key, fault);
      if fault.LostBefore? || Completed(r, t.item, key).Err? {
        MoveKeeps(r, t, key, after);
      } else {
        CommitKeeps(r, t, key);
        CommittedAttempt(r, max, t, key, fault);
        hide DoComplete, AttemptInv, Wanted;
        MoveKeeps(r, End(t.(item := Completed(r, t.item, key).value), key), key, after);
      }
    }
  }

  /** The attempt a commit leaves behind, if it reports an error. */
  lemma CommittedAttempt(r: Rules, max: nat, t: Track, key: Key, fault: Fault)
    requires At(t, key, Claimed) && t.attempts[key].done == Wanted(key, t.item.outbox[key]) && AttemptInv(t, key)
    requires !fault.LostBefore? && Completed(r, t.item, key).Ok?
    requires var item := Completed(r, t.item, key).value;
      key in item.outbox && item.outbox[key] == t.item.outbox[key].(status := Delivered)
    ensures var after := DoComplete(r, max, t, key, fault);
      && after == t.(item := Completed(r, t.item, key).value, attempts := after.attempts)
      && AttemptInv(after, key)
      && forall k | k in after.attempts && k != key :: k in t.attempts && after.attempts[k] == t.attempts[k]
  {
    hide Completed;
  }

  lemma ConfirmKeeps(r: Rules, t: Track, key: Key, answered: bool)
    requires Inv(r, t)
    ensures Inv(r, DoConfirm(t, key, answered))
  {
    hide EntryInv, EventsInv, LedgerInv;
    if At(t, key, Confirming) {
      assert AttemptInv(t, key);
      MoveKeeps(r, t, key, DoConfirm(t, key, answered));
    }
  }

  // ---------------------------------------------------------------- failure

  /** A failed event, before anything is compensated. */
  lemma FailureKeeps(r: Rules, t: Track, key: Key)
    requires EventsInv(t.item.entry, t.item.outbox) && key in t.item.outbox
    requires t.item.entry.Some? ==> EntryInv(r, t.item.entry.value, t.revoked)
    requires key.PublishKey? ==> LiveEvent(t.item.outbox[key])
    requires key.UnpublishKey? ==> forall u | u in t.item.outbox[key].revoking :: t.item.outbox[key].revoking[u].grant in t.revoked
    ensures var item := Fail(t.item, key);
      && (item.entry.Some? ==> EntryInv(r, item.entry.value, t.revoked))
      && EventsInv(item.entry, item.outbox)
      && RecordedOf(item.entry) == RecordedOf(t.item.entry)
  {
    var item := Fail(t.item, key);
    assert EventInv(t.item.entry, key, t.item.outbox[key]);
    forall k | k in item.outbox ensures EventInv(item.entry, k, item.outbox[k]) {
      assert EventInv(t.item.entry, k, t.item.outbox[k]);
    }
  }

  /** The ledger once the publication of `v` failed in an attempt that held the grants of the
      usages `held`. */
  lemma LossKeepsLedger(before: Outbox, after: Outbox, v: Version, recorded: map<Usage, Recorded>, held: set<Usage>, t: Track, dropped: set<Grant>)
    requires LedgerInv(before, recorded, t.granted, t.revoked, t.dropped)
    requires !DeliveredAt(before, v) && !FailedAt(before, v)
    requires forall w :: DeliveredAt(after, w) == DeliveredAt(before, w)
    requires forall w :: FailedAt(after, w) == (FailedAt(before, w) || w == v)
    requires forall g :: Planned(after, g) == Planned(before, g)
    requires forall u | u in held :: Grant(u, v) in t.granted
    requires forall g :: g in dropped <==> g in t.dropped || (g.version == v && Planned(before, g) && g.usage !in held)
    requires forall g :: RevokeKey(g) in after <==> RevokeKey(g) in before
    requires forall g | RevokeKey(g) in after :: after[RevokeKey(g)] == before[RevokeKey(g)]
    requires forall g :: CompensateKey(g) in after <==> CompensateKey(g) in before || (g.version == v && g.usage in held)
    requires forall g | CompensateKey(g) in after ::
               if CompensateKey(g) in before then after[CompensateKey(g)] == before[CompensateKey(g)] else LiveEvent(after[CompensateKey(g)])
    ensures LedgerInv(after, recorded, t.granted, t.revoked, dropped)
  {
    hide DeliveredAt, FailedAt, Planned, Records, LiveEvent;
  }

  /** What compensating adds to the outbox. */
  lemma CompensatedOutbox(outbox: Outbox, covers: map<Usage, string>, v: Version, done: set<Usage>)
    requires done <= covers.Keys
    ensures var after := Compensated(Compensated(outbox, Held(covers, v, done), Detail), Held(covers, v, done), HomePage);
      && (forall k | k in outbox :: k in after && after[k] == outbox[k])
      && (forall u | u in done :: CompensateKey(Grant(u, v)) in after)
      && (forall k | k in after && k !in outbox ::
            && k.CompensateKey? && k.grant.version == v && k.grant.usage in done
            && after[k] == Event(Waiting, 0, map[], map[k.grant.usage := Recorded(covers[k.grant.usage], k.grant)]))
  {
    forall u | u in done
      ensures CompensateKey(Grant(u, v)) in Compensated(Compensated(outbox, Held(covers, v, done), Detail), Held(covers, v, done), HomePage)
    {
      assert u.Detail? || u.HomePage?;
    }
  }

  /** Failing a publication in an attempt that holds the grants of the usages `done`. */
  lemma FailPublishKeeps(r: Rules, t: Track, v: Version, done: set<Usage>, after: Track)
    requires Inv(r, t) && LiveAt(t.item.outbox, v) && done <= t.item.outbox[PublishKey(v)].covers.Keys
    requires forall u | u in done :: Grant(u, v) in t.granted
    requires after.granted == t.granted && after.revoked == t.revoked
    requires after.item == FailPublish(t.item, v, Held(t.item.outbox[PublishKey(v)].covers, v, done))
    requires after.dropped == t.dropped + GrantSet(t.item.outbox[PublishKey(v)].covers.Keys - done, v)
    requires forall k | k in after.attempts && k != PublishKey(v) :: k in t.attempts && after.attempts[k] == t.attempts[k]
    requires AttemptInv(after, PublishKey(v))
    ensures Inv(r, after)
  {
    hide EntryInv, EventsInv, LedgerInv, RecordedOf, LiveAt, GrantSet, Planned;
    var key := PublishKey(v);
    LiveEventAt(t.item.outbox, v);
    var covers := t.item.outbox[key].covers;
    var failed := Fail(t.item, key);
    FailureKeeps(r, t, key);
    CompensatedOutbox(failed.outbox, covers, v, done);
    FailedOutbox(t.item, key);
    hide Compensated, Fail, Held, LiveEvent;
    CompensationKeepsEvents(failed, after.item);
    CompensationKeepsLedger(t, v, done, after.item.outbox);
    AttemptsAfterLoss(t, after, key, covers.Keys - done);
  }

  lemma LiveEventAt(outbox: Outbox, v: Version)
    requires LiveAt(outbox, v)
    ensures PublishKey(v) in outbox && LiveEvent(outbox[PublishKey(v)])
  {
  }

  lemma AttemptsAfterLoss(t: Track, after: Track, key: Key, lost: set<Usage>)
    requires key.PublishKey? && forall k | k in t.attempts :: AttemptInv(t, k)
    requires after.granted == t.granted && after.revoked == t.revoked && after.dropped == t.dropped + GrantSet(lost, key.version)
    requires forall k | k in t.item.outbox && k != key :: k in after.item.outbox && after.item.outbox[k] == t.item.outbox[k]
    requires forall k | k in after.attempts && k != key :: k in t.attempts && after.attempts[k] == t.attempts[k]
    requires AttemptInv(after, key)
    ensures forall k | k in after.attempts :: AttemptInv(after, k)
  {
    AttemptsKeep(t, after, key);
  }

  lemma CompensationKeepsLedger(t: Track, v: Version, done: set<Usage>, after: Outbox)
    requires LedgerInv(t.item.outbox, RecordedOf(t.item.entry), t.granted, t.revoked, t.dropped)
    requires LiveAt(t.item.outbox, v) && done <= t.item.outbox[PublishKey(v)].covers.Keys
    requires forall u | u in done :: Grant(u, v) in t.granted
    requires var failed := Marked(t.item.outbox, PublishKey(v), FailedEvent);
      && (forall k | k in failed :: k in after && after[k] == failed[k])
      && (forall u | u in done :: CompensateKey(Grant(u, v)) in after)
      && (forall k | k in after && k !in failed :: k.CompensateKey? && k.grant.version == v && k.grant.usage in done && LiveEvent(after[k]))
    ensures LedgerInv(after, RecordedOf(t.item.entry), t.granted, t.revoked,
                      t.dropped + GrantSet(t.item.outbox[PublishKey(v)].covers.Keys - done, v))
  {
    hide LedgerInv, RecordedOf;
    LossKeepsLedger(t.item.outbox, after, v, RecordedOf(t.item.entry), done, t,
                    t.dropped + GrantSet(t.item.outbox[PublishKey(v)].covers.Keys - done, v));
  }

  lemma FailedOutbox(item: Item, key: Key)
    requires key in item.outbox
    ensures Fail(item, key).outbox == Marked(item.outbox, key, FailedEvent)
  {
  }

  lemma CompensationKeepsEvents(failed: Item, after: Item)
    requires EventsInv(failed.entry, failed.outbox) && after.entry == failed.entry
    requires forall k | k in failed.outbox :: k in after.outbox && after.outbox[k] == failed.outbox[k]
    requires forall k | k in after.outbox && k !in failed.outbox ::
               k.CompensateKey? && after.outbox[k].revoking.Keys == {k.grant.usage} && after.outbox[k].revoking[k.grant.usage].grant == k.grant
    ensures EventsInv(after.entry, after.outbox)
  {
    forall k | k in after.outbox ensures EventInv(after.entry, k, after.outbox[k]) {
      if k in failed.outbox { assert EventInv(failed.entry, k, failed.outbox[k]); }
    }
  }

  lemma CompensateKeeps(r: Rules, t: Track, key: Key, fault: Fault)
    requires Inv(r, t)
    ensures Inv(r, DoCompensate(t, key, fault))
  {
    hide EntryInv, EventsInv, LedgerInv;
    if At(t, key, Compensating) && key.PublishKey? {
      assert AttemptInv(t, key);
      var after := DoCompensate(t, key, fault);
      if fault.LostBefore? {
        MoveKeeps(r, t, key, after);
      } else {
        FailedEventOf(t.item, key, Held(t.item.outbox[key].covers, key.version, t.attempts[key].done));
        hide FailPublish;
        FailPublishKeeps(r, t, key.version, t.attempts[key].done, after);
      }
    }
  }

  lemma FailedEventOf(item: Item, key: Key, assets: map<Usage, Recorded>)
    requires key.PublishKey? && key in item.outbox
    ensures var after := FailPublish(item, key.version, assets).outbox;
      key in after && after[key] == item.outbox[key].(status := FailedEvent)
  {
  }

  /** An event that only revokes fails after it revoked everything. */
  lemma FailRevokingKeeps(r: Rules, t: Track, key: Key, after: Track)
    requires Inv(r, t) && key in t.item.outbox && !key.PublishKey?
    requires forall u | u in t.item.outbox[key].revoking :: t.item.outbox[key].revoking[u].grant in t.revoked
    requires after == End(t.(item := Fail(t.item, key)), key)
    ensures Inv(r, after)
  {
    hide EntryInv;
    FailureKeeps(r, t, key);
    assert EventInv(t.item.entry, key, t.item.outbox[key]);
    hide EventsInv;
    FailedRevokingLedger(t, key);
    hide LedgerInv;
    AttemptsKeep(t, after, key);
  }

  lemma FailedRevokingLedger(t: Track, key: Key)
    requires LedgerInv(t.item.outbox, RecordedOf(t.item.entry), t.granted, t.revoked, t.dropped)
    requires key in t.item.outbox && !key.PublishKey? && (!key.UnpublishKey? ==> key.grant in t.revoked)
    ensures LedgerInv(Marked(t.item.outbox, key, FailedEvent), RecordedOf(t.item.entry), t.granted, t.revoked, t.dropped)
  {
    var after := Marked(t.item.outbox, key, FailedEvent);
    forall w ensures DeliveredAt(after, w) == DeliveredAt(t.item.outbox, w) && FailedAt(after, w) == FailedAt(t.item.outbox, w) {}
    forall g ensures Planned(after, g) == Planned(t.item.outbox, g) {}
  }

  lemma SettleKeeps(r: Rules, t: Track, key: Key, fault: Fault)
    requires Inv(r, t)
    ensures Inv(r, DoSettle(t, key, fault))
  {
    hide EntryInv, EventsInv, LedgerInv;
    if key in t.attempts && t.attempts[key].phase.Settling? && key in t.item.outbox {
      assert AttemptInv(t, key);
      var after := DoSettle(t, key, fault);
      var verdict := t.attempts[key].phase.verdict;
      if fault.LostBefore? || (!verdict.ToFail? && !t.item.outbox[key].status.Processing?) {
        MoveKeeps(r, t, key, after);
      } else if !verdict.ToFail? {
        StatusKeeps(r, t, key, Waiting, after.item.outbox[key].attempts, after);
      } else if key.PublishKey? {
        PlainFailure(t.item, key.version);
        FailPublishKeeps(r, t, key.version, {}, after);
      } else {
        FailRevokingKeeps(r, t, key, after);
      }
    }
  }

  lemma PlainFailure(item: Item, v: Version)
    requires PublishKey(v) in item.outbox
    ensures Fail(item, PublishKey(v)) == FailPublish(item, v, Held(item.outbox[PublishKey(v)].covers, v, {}))
    ensures item.outbox[PublishKey(v)].covers.Keys - {} == item.outbox[PublishKey(v)].covers.Keys
  {
  }

  // ---------------------------------------------------------------- all of it

  lemma NextKeeps(r: Rules, max: nat, taken: set<string>, t: Track, step: Step)
    requires Inv(r, t)
    ensures Inv(r, Next(r, max, taken, t, step))
  {
    hide Inv;
    match step
    case Do(expected, op) => if Apply(r, t.item, expected, taken, op).Ok? { ApplyKeeps(r, t, expected, taken, op); }
    case Claim(key) => ClaimKeeps(r, t, key);
    case GetAsset(key, reply) => GetAssetKeeps(r, max, t, key, reply);
    case CreateGrant(key, fault) => CreateGrantKeeps(r, max, t, key, fault);
    case RevokeNext(key, fault) => RevokeNextKeeps(r, t, key, fault);
    case Complete(key, fault) => CompleteKeeps(r, max, t, key, fault);
    case Confirm(key, answered) => ConfirmKeeps(r, t, key, answered);
    case Compensate(key, fault) => CompensateKeeps(r, t, key, fault);
    case Settle(key, fault) => SettleKeeps(r, t, key, fault);
    case Crash(key) => CrashKeeps(r, t, key);
  }

  lemma CrashKeeps(r: Rules, t: Track, key: Key)
    requires Inv(r, t)
    ensures Inv(r, End(t, key))
  {
    MoveKeeps(r, t, key, End(t, key));
  }

  predicate SlugsDiffer(room: Newsroom) {
    forall a, b | a in room && b in room && a != b && room[a].item.entry.Some? && room[b].item.entry.Some? ::
      room[a].item.entry.value.content.slug != room[b].item.entry.value.content.slug
  }

  ghost predicate RoomInv(r: Rules, room: Newsroom) {
    (forall id | id in room :: Inv(r, room[id])) && SlugsDiffer(room)
  }

  /** Only an update can give an entry another slug, and only a free one. */
  lemma SlugsStayFree(r: Rules, max: nat, taken: set<string>, t: Track, step: Step)
    ensures var after := Next(r, max, taken, t, step).item.entry;
      after.Some? ==>
        t.item.entry.Some? && (after.value.content.slug == t.item.entry.value.content.slug || after.value.content.slug !in taken)
  {
    hide DoComplete, DoCompensate, DoSettle, Apply;
    match step
    case Do(expected, op) => SlugsSurviveEdits(r, taken, t.item, expected, op);
    case Complete(key, fault) => SlugsSurviveCompletion(r, max, t, key, fault);
    case Compensate(key, fault) => SlugsSurviveFailure(t, key, fault);
    case Settle(key, fault) => SlugsSurviveFailure(t, key, fault);
    case _ =>
  }

  lemma SlugsSurviveEdits(r: Rules, taken: set<string>, item: Item, expected: Version, op: Op)
    ensures var after := Apply(r, item, expected, taken, op);
      after.Ok? && after.value.entry.Some? ==>
        item.entry.Some? && (after.value.entry.value.content.slug == item.entry.value.content.slug ||
                             after.value.entry.value.content.slug !in taken)
  {
  }

  lemma SlugsSurviveFailure(t: Track, key: Key, fault: Fault)
    ensures DoCompensate(t, key, fault).item.entry.Some? ==>
      t.item.entry.Some? && DoCompensate(t, key, fault).item.entry.value.content == t.item.entry.value.content
    ensures DoSettle(t, key, fault).item.entry.Some? ==>
      t.item.entry.Some? && DoSettle(t, key, fault).item.entry.value.content == t.item.entry.value.content
  {
  }

  lemma SlugsSurviveCompletion(r: Rules, max: nat, t: Track, key: Key, fault: Fault)
    ensures var after := DoComplete(r, max, t, key, fault).item.entry;
      after.Some? ==> t.item.entry.Some? && after.value.content == t.item.entry.value.content
  {
  }

  lemma AdvanceKeeps(r: Rules, max: nat, room: Newsroom, turn: Turn)
    requires RoomInv(r, room)
    ensures RoomInv(r, Advance(r, max, room, turn))
  {
    match turn
    case Create(id, content) =>
      NewItemHolds(r, content);
      hide Inv;
    case On(id, step) =>
      hide Inv, Next;
      if id in room {
        NextKeeps(r, max, SlugsOfOthers(room, id), room[id], step);
        SlugsStayFree(r, max, SlugsOfOthers(room, id), room[id], step);
      }
  }

  lemma NewItemHolds(r: Rules, content: NewsContent)
    ensures Inv(r, Track(NewItem(content), {}, {}, map[], {}))
  {
  }

  lemma {:induction false} RunKeeps(r: Rules, max: nat, room: Newsroom, turns: seq<Turn>)
    requires RoomInv(r, room)
    ensures RoomInv(r, Run(r, max, room, turns))
    decreases turns
  {
    hide RoomInv, Advance;
    if turns != [] {
      AdvanceKeeps(r, max, room, turns[0]);
      RunKeeps(r, max, Advance(r, max, room, turns[0]), turns[1..]);
    }
  }
}
