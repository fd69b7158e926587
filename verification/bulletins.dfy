/** Weekly bulletins: issues with up to three editions, their publication life cycle, the
    public rows, the cached latest row of each edition, and the outbox. Each function is one
    repository transaction: the new tables, or an error and no change. */
module Bulletins {
  import opened ContentModel

  type Date = int

  /** A grant is identified with the idempotency key it is created under. */
  datatype Grant = Grant(issue: Id, locale: Locale, version: Version)

  datatype Notice = NotRequested | NoticePending | NoticeQueued | NoticeFailed

  datatype Edition = Edition(
    text: string,
    asset: string,
    status: Status,
    grant: Option<Grant>,
    retiringAsset: Option<string>,
    retiringGrant: Option<Grant>)

  /** What a revision keeps of an edition, and what an upload brings. */
  datatype Upload = Upload(text: string, asset: string)

  datatype Snapshot = Snapshot(number: Option<nat>, date: Date, uploads: map<Locale, Upload>)

  datatype Issue = Issue(
    number: Option<nat>,
    date: Date,
    status: Status,
    version: Version,
    notice: Notice,
    editions: map<Locale, Edition>,
    revisions: map<Version, Snapshot>)

  datatype Public = Public(number: Option<nat>, date: Date, text: string, asset: string)

  /** A row of `public_projection`: its issue, the issue version it shows, and its payload. */
  datatype Projection = Projection(issue: Id, version: Version, payload: Public)

  /** The row under an edition's latest key. Its resource type is the issue type when it was
      last created by an unpublication, and then it also turns up among the issue rows. */
  datatype Latest = Latest(asIssue: bool, row: Projection)

  datatype EventKey =
    | PublishKey(issue: Id, locale: Locale, version: Version)
    | UnpublishKey(issue: Id, locale: Locale, version: Version)
    | NoticeKey(issue: Id)
    | RetireKey(issue: Id, locale: Locale, asset: string)
    | RevokeKey(issue: Id, locale: Locale, version: Version)

  datatype Event = Event(status: EventStatus, attempts: nat, asset: string, grant: Option<Grant>, notify: bool)

  /** `used` holds every id ever given out; ids are fresh UUIDs. */
  datatype Tables = Tables(
    issues: map<Id, Issue>,
    rows: map<(Locale, Date), Projection>,
    latest: map<Locale, Latest>,
    outbox: map<EventKey, Event>,
    used: set<Id>)

  const EDITIONS: set<Locale> := {ZhHant, ZhHans, En}

  /** COALESCE(issue_number, 0) */
  function Rank(number: Option<nat>): nat {
    if number.Some? then number.value else 0
  }

  // ---------------------------------------------------------------- guards

  function LockIssue(b: Tables, id: Id, expected: Version, busy: Error): Result<Issue> {
    if id !in b.issues then Err(NotFound)
    else if b.issues[id].version != expected then Err(Precondition)
    else if Busy(b.issues[id].status) then Err(busy)
    else Ok(b.issues[id])
  }

  predicate DateTaken(issues: map<Id, Issue>, id: Id, date: Date) {
    exists other | other in issues :: other != id && issues[other].date == date
  }

  predicate NumberTaken(issues: map<Id, Issue>, id: Id, number: Option<nat>) {
    number.Some? && exists other | other in issues :: other != id && issues[other].number == number
  }

  /** The two uniqueness constraints on issues. */
  predicate Taken(issues: map<Id, Issue>, id: Id, number: Option<nat>, date: Date) {
    DateTaken(issues, id, date) || NumberTaken(issues, id, number)
  }

  predicate HoldsGrant(edition: Edition) {
    edition.grant.Some? || edition.retiringGrant.Some?
  }

  function SnapshotOf(issue: Issue): Snapshot {
    Snapshot(issue.number, issue.date, map l | l in issue.editions :: Upload(issue.editions[l].text, issue.editions[l].asset))
  }

  /** Bump the version, record the revision and store the issue. */
  function Finish(b: Tables, id: Id, issue: Issue): Result<Tables> {
    var bumped := issue.(version := issue.version + 1);
    if bumped.version in issue.revisions then Err(Duplicate)
    else Ok(b.(issues := b.issues[id := bumped.(revisions := issue.revisions[bumped.version := SnapshotOf(bumped)])]))
  }

  // ---------------------------------------------------------------- editing

  function CreateIssue(b: Tables, id: Id, number: nat, date: Date): Result<Tables> {
    if number < 1 then Err(Invalid)
    else if id in b.used then Err(Duplicate)
    else if Taken(b.issues, id, Some(number), date) then Err(Conflict)
    else
      Ok(b.(issues := b.issues[id := Issue(Some(number), date, Draft, 1, NotRequested, map[], map[])], used := b.used + {id}))
  }

  predicate BlocksMetadata(edition: Edition) {
    edition.status.Published? || Busy(edition.status) || edition.status.UnpublishFailed? || HoldsGrant(edition)
  }

  function UpdateIssue(b: Tables, id: Id, expected: Version, number: nat, date: Date): Result<Tables> {
    if number < 1 then Err(Invalid)
    else
      var issue :- LockIssue(b, id, expected, Conflict);
      if exists l | l in issue.editions :: BlocksMetadata(issue.editions[l]) then Err(Conflict)
      else if Taken(b.issues, id, Some(number), date) then Err(Conflict)
      else Finish(b, id, issue.(number := Some(number), date := date))
  }

  /** What an upload makes of the edition it replaces: a published one starts to retire. */
  function Uploaded(previous: Option<Edition>, upload: Upload): Edition {
    match previous
    case None => Edition(upload.text, upload.asset, Draft, None, None, None)
    case Some(e) =>
      if e.status.Published? then Edition(upload.text, upload.asset, Draft, e.grant, Some(e.asset), e.grant)
      else e.(text := upload.text, asset := upload.asset, status := Draft)
  }

  function EditionAt(issue: Issue, l: Locale): Option<Edition> {
    if l in issue.editions then Some(issue.editions[l]) else None
  }

  function PutVersion(b: Tables, id: Id, l: Locale, expected: Version, upload: Upload): Result<Tables> {
    if l !in EDITIONS then Err(Invalid)
    else
      var issue :- LockIssue(b, id, expected, NotPublishable);
      if l in issue.editions && (issue.editions[l].status.Unpublishing? || issue.editions[l].status.UnpublishFailed?) then
        Err(NotPublishable)
      else
        Finish(b, id, issue.(status := Draft, editions := issue.editions[l := Uploaded(EditionAt(issue, l), upload)]))
  }

  predicate Editable(edition: Edition) {
    (edition.status.Draft? || edition.status.Unpublished?) && !HoldsGrant(edition)
  }

  function UpdateVersion(b: Tables, id: Id, l: Locale, expected: Version, text: string): Result<Tables> {
    if l !in EDITIONS then Err(Invalid)
    else
      var issue :- LockIssue(b, id, expected, Conflict);
      if l !in issue.editions || !Editable(issue.editions[l]) then Err(Conflict)
      else
        var edition := issue.editions[l].(text := text, status := Draft);
        Finish(b, id, issue.(status := Draft, editions := issue.editions[l := edition]))
  }

  function DeleteVersion(b: Tables, id: Id, l: Locale, expected: Version): Result<Tables> {
    if l !in EDITIONS then Err(Invalid)
    else
      var issue :- LockIssue(b, id, expected, Conflict);
      if l !in issue.editions then Err(NotFound)
      else if !Editable(issue.editions[l]) then Err(Conflict)
      else Finish(b, id, issue.(status := Draft, editions := issue.editions - {l}))
  }

  predicate HasIssueRow(b: Tables, id: Id) {
    || (exists key | key in b.rows :: b.rows[key].issue == id)
    || (exists l | l in b.latest :: b.latest[l].asIssue && b.latest[l].row.issue == id)
  }

  function RestoredEditions(editions: map<Locale, Edition>, uploads: map<Locale, Upload>): map<Locale, Edition> {
    map l | l in uploads :: Uploaded(if l in editions then Some(editions[l]) else None, uploads[l])
  }

  function RestoreIssueRevision(b: Tables, id: Id, revision: Version, expected: Version): Result<Tables> {
    var issue :- LockIssue(b, id, expected, Conflict);
    if revision !in issue.revisions then Err(NotFound)
    else
      var snapshot := issue.revisions[revision];
      if exists l | l in snapshot.uploads :: l !in EDITIONS then Err(Invalid)
      else if (issue.date != snapshot.date || issue.number != snapshot.number) && HasIssueRow(b, id) then Err(Conflict)
      else if exists l | l in issue.editions && l !in snapshot.uploads ::
                HoldsGrant(issue.editions[l]) || issue.editions[l].status.Published? ||
                issue.editions[l].status.Unpublishing? || issue.editions[l].status.UnpublishFailed? then Err(Conflict)
      else if Taken(b.issues, id, snapshot.number, snapshot.date) then Err(Conflict)
      else
        Finish(b, id, issue.(number := snapshot.number, date := snapshot.date, status := Draft,
                             editions := RestoredEditions(issue.editions, snapshot.uploads)))
  }

  predicate HasPublicState(b: Tables, id: Id) {
    || (exists key | key in b.rows :: b.rows[key].issue == id)
    || (exists l | l in b.latest :: b.latest[l].row.issue == id)
    || (id in b.issues && exists l | l in b.issues[id].editions :: HoldsGrant(b.issues[id].editions[l]))
  }

  function DeleteIssue(b: Tables, id: Id, expected: Version): Result<Tables> {
    if id !in b.issues then Err(NotFound)
    else if b.issues[id].version != expected then Err(Precondition)
    else if Busy(b.issues[id].status) || b.issues[id].status.Published? || b.issues[id].status.UnpublishFailed? then Err(Conflict)
    else if HasPublicState(b, id) then Err(Conflict)
    else Ok(b.(issues := b.issues - {id}))
  }

  // ---------------------------------------------------------------- publishing

  /** The issue once edition `l` entered a busy status at the next version. */
  function Entered(issue: Issue, l: Locale, status: Status): Issue
    requires l in issue.editions
  {
    issue.(status := status, version := issue.version + 1,
           editions := issue.editions[l := issue.editions[l].(status := status)])
  }

  function StartPublish(b: Tables, id: Id, l: Locale, expected: Version, notify: bool): Result<Tables> {
    if l !in EDITIONS then Err(Invalid)
    else
      var issue :- LockIssue(b, id, expected, NotPublishable);
      if l !in issue.editions then Err(NotPublishable)
      else
        var key := PublishKey(id, l, expected + 1);
        if key in b.outbox then Err(Duplicate)
        else Ok(b.(issues := b.issues[id := Entered(issue, l, Publishing)],
                   outbox := b.outbox[key := Event(Waiting, 0, issue.editions[l].asset, None, notify)]))
  }

  /** The rows that an unpublication considers for the latest key of edition `l`. */
  function Candidates(rows: map<(Locale, Date), Projection>, latest: map<Locale, Latest>, l: Locale): set<Projection> {
    (set key | key in rows && key.0 == l :: rows[key]) +
    (if l in latest && latest[l].asIssue then {latest[l].row} else {})
  }

  /** ORDER BY number DESC, date DESC */
  predicate AtLeast(p: Projection, q: Projection) {
    || Rank(q.payload.number) < Rank(p.payload.number)
    || (Rank(q.payload.number) == Rank(p.payload.number) && q.payload.date <= p.payload.date)
  }

  predicate IsBest(candidates: set<Projection>, p: Projection) {
    p in candidates && forall q | q in candidates :: AtLeast(p, q)
  }

  lemma {:induction false} BestExists(candidates: set<Projection>)
    requires candidates != {}
    ensures exists p :: IsBest(candidates, p)
    decreases candidates
  {
    var p :| p in candidates;
    var rest := candidates - {p};
    if rest == {} {
      assert candidates == {p};
      assert IsBest(candidates, p);
    } else {
      BestExists(rest);
      var q :| IsBest(rest, q);
      var best := if AtLeast(q, p) then q else p;
      forall c | c in candidates ensures AtLeast(best, c) { assert c == p || c in rest; }
      assert IsBest(candidates, best);
    }
  }

  ghost function Best(candidates: set<Projection>): Projection
    requires candidates != {}
    ensures IsBest(candidates, Best(candidates))
  {
    BestExists(candidates);
    var p :| IsBest(candidates, p);
    p
  }

  /** The latest rows once issue `id` left edition `l`, rebuilt from the rows that remain. */
  ghost function Relatest(rows: map<(Locale, Date), Projection>, latest: map<Locale, Latest>, l: Locale, id: Id): map<Locale, Latest> {
    var kept := if l in latest && latest[l].row.issue == id then latest - {l} else latest;
    var candidates := Candidates(rows, kept, l);
    if candidates == {} then kept
    else kept[l := Latest(if l in kept then kept[l].asIssue else true, Best(candidates))]
  }

  predicate Unpublishable(edition: Edition) {
    (edition.status.Published? || edition.status.Draft? || edition.status.UnpublishFailed?) && edition.grant.Some?
  }

  ghost function Unpublish(b: Tables, id: Id, l: Locale, expected: Version): Result<Tables> {
    if l !in EDITIONS then Err(Invalid)
    else
      var issue :- LockIssue(b, id, expected, NotPublishable);
      if l !in issue.editions || !Unpublishable(issue.editions[l]) then Err(NotPublishable)
      else
        var edition := issue.editions[l];
        var key := UnpublishKey(id, l, expected + 1);
        var asset := if edition.retiringAsset.Some? then edition.retiringAsset.value else edition.asset;
        var rows := b.rows - {(l, issue.date)};
        if key in b.outbox then Err(Duplicate)
        else Ok(b.(issues := b.issues[id := Entered(issue, l, Unpublishing)],
                   rows := rows,
                   latest := Relatest(rows, b.latest, l, id),
                   outbox := b.outbox[key := Event(Waiting, 0, asset, edition.grant, false)]))
  }

  /** The upsert of the latest row: only a row of no greater number gives way. */
  function Advance(latest: map<Locale, Latest>, l: Locale, row: Projection): map<Locale, Latest> {
    if l !in latest then latest[l := Latest(false, row)]
    else if Rank(latest[l].row.payload.number) <= Rank(row.payload.number) then latest[l := latest[l].(row := row)]
    else latest
  }

  /** The issue's one notification event: inserted, or revived when it had failed. */
  function RequestNotice(outbox: map<EventKey, Event>, id: Id): map<EventKey, Event> {
    var key := NoticeKey(id);
    if key !in outbox then outbox[key := Event(Waiting, 0, "", None, false)]
    else if outbox[key].status.FailedEvent? then outbox[key := outbox[key].(status := Waiting, attempts := 0)]
    else outbox
  }

  predicate WantsNotice(issue: Issue, event: Event) {
    event.notify && (issue.notice.NotRequested? || issue.notice.NoticeFailed?)
  }

  /** Queue the deletion of the file a publication replaced. */
  function RetireFile(outbox: map<EventKey, Event>, id: Id, l: Locale, edition: Edition, asset: string): map<EventKey, Event> {
    if edition.retiringAsset.None? || edition.retiringAsset.value == asset then outbox
    else
      var key := RetireKey(id, l, edition.retiringAsset.value);
      if key in outbox then outbox
      else outbox[key := Event(Waiting, 0, edition.retiringAsset.value, edition.retiringGrant, false)]
  }

  function Settled(issue: Issue, l: Locale, edition: Edition, status: Status): Issue {
    issue.(status := status, editions := issue.editions[l := edition])
  }

  function PublishedEdition(edition: Edition, grant: Grant): Edition {
    edition.(status := Published, grant := Some(grant), retiringAsset := None, retiringGrant := None)
  }

  function RowFor(id: Id, issue: Issue, l: Locale, asset: string): Projection
    requires l in issue.editions
  {
    Projection(id, issue.version, Public(issue.number, issue.date, issue.editions[l].text, asset))
  }

  function Deliver(outbox: map<EventKey, Event>, key: EventKey): map<EventKey, Event>
    requires key in outbox
  {
    outbox[key := outbox[key].(status := Delivered)]
  }

  function CompletePublish(b: Tables, id: Id, l: Locale, v: Version): Result<Tables> {
    var key := PublishKey(id, l, v);
    if l !in EDITIONS then Err(Invalid)
    else if key !in b.outbox then Err(NotFound)
    else if b.outbox[key].status.Delivered? then Ok(b)
    else if id !in b.issues || l !in b.issues[id].editions then Err(NotFound)
    else
      var event := b.outbox[key];
      var issue := b.issues[id];
      var edition := issue.editions[l];
      if issue.version != v || !issue.status.Publishing? || !edition.status.Publishing? then Err(Stale)
      else
        var row := RowFor(id, issue, l, event.asset);
        var live := Settled(issue, l, PublishedEdition(edition, Grant(id, l, v)), Published);
        var outbox := RetireFile(Deliver(b.outbox, key), id, l, edition, event.asset);
        Ok(b.(issues := b.issues[id := if WantsNotice(issue, event) then live.(notice := NoticePending) else live],
              rows := b.rows[(l, issue.date) := row],
              latest := Advance(b.latest, l, row),
              outbox := if WantsNotice(issue, event) then RequestNotice(outbox, id) else outbox))
  }

  predicate AnyPublished(editions: map<Locale, Edition>) {
    exists l | l in editions :: editions[l].status.Published?
  }

  function CompleteUnpublish(b: Tables, id: Id, l: Locale, v: Version): Result<Tables> {
    var key := UnpublishKey(id, l, v);
    if key !in b.outbox then Err(NotFound)
    else if b.outbox[key].status.Delivered? then Ok(b)
    else if id !in b.issues || l !in b.issues[id].editions || b.issues[id].version != v ||
            !b.issues[id].editions[l].status.Unpublishing? then Err(Stale)
    else
      var issue := b.issues[id];
      var editions := issue.editions[l := issue.editions[l].(status := Unpublished, grant := None, retiringAsset := None, retiringGrant := None)];
      var status := if AnyPublished(editions) then Published else Unpublished;
      Ok(b.(issues := b.issues[id := issue.(status := status, editions := editions)], outbox := Deliver(b.outbox, key)))
  }

  // ---------------------------------------------------------------- the outbox

  predicate LiveEvent(event: Event) {
    event.status.Waiting? || event.status.Processing?
  }

  function Write(b: Tables, key: EventKey, status: EventStatus, attempts: nat): Tables
    requires key in b.outbox
  {
    b.(outbox := b.outbox[key := b.outbox[key].(status := status, attempts := attempts)])
  }

  function Claim(b: Tables, key: EventKey): Tables {
    if key in b.outbox && LiveEvent(b.outbox[key]) then Write(b, key, Processing, b.outbox[key].attempts + 1) else b
  }

  /** Retry and Defer: back to waiting, unless the event is not processing any more. */
  function Release(b: Tables, key: EventKey, defers: bool): Tables {
    if key in b.outbox && b.outbox[key].status.Processing? then
      var attempts := b.outbox[key].attempts;
      Write(b, key, Waiting, if defers && 0 < attempts then attempts - 1 else attempts)
    else b
  }

  /** An issue at version `v` in busy status `from` falls back to status `to`, and with it
      edition `l`; the two updates are independent statements. */
  function FallBack(issue: Issue, l: Locale, v: Version, from: Status, to: Status): Issue {
    if issue.version != v then issue
    else
      issue.(status := if issue.status == from then to else issue.status,
             editions := if l in issue.editions && issue.editions[l].status == from
                         then issue.editions[l := issue.editions[l].(status := to)] else issue.editions)
  }

  function WithIssue(b: Tables, id: Id, issue: Issue): Tables {
    b.(issues := b.issues[id := issue])
  }

  /** failEvent */
  function Fail(b: Tables, key: EventKey): Tables {
    if key !in b.outbox then b
    else
      var failed := Write(b, key, FailedEvent, b.outbox[key].attempts);
      if key.issue !in b.issues then failed
      else
        var issue := b.issues[key.issue];
        match key
        case NoticeKey(id) =>
          if issue.notice.NoticePending? then WithIssue(failed, id, issue.(notice := NoticeFailed)) else failed
        case PublishKey(id, l, v) => WithIssue(failed, id, FallBack(issue, l, v, Publishing, Draft))
        case UnpublishKey(id, l, v) => WithIssue(failed, id, FallBack(issue, l, v, Unpublishing, UnpublishFailed))
        case _ => failed
  }

  /** FailPublish: also queue the revocation of the grant the attempt obtained. */
  function FailPublish(b: Tables, id: Id, l: Locale, v: Version): Tables {
    var failed := Fail(b, PublishKey(id, l, v));
    var key := RevokeKey(id, l, v);
    if PublishKey(id, l, v) !in b.outbox || key in failed.outbox then failed
    else
      failed.(outbox := failed.outbox[key := Event(Waiting, 0, b.outbox[PublishKey(id, l, v)].asset, Some(Grant(id, l, v)), false)])
  }

  function CompleteNotification(b: Tables, id: Id): Tables {
    var key := NoticeKey(id);
    if key !in b.outbox then b
    else
      var done := if b.outbox[key].status.Processing? then b.(outbox := Deliver(b.outbox, key)) else b;
      if id in b.issues && b.issues[id].notice.NoticePending?
      then WithIssue(done, id, b.issues[id].(notice := NoticeQueued)) else done
  }
}
