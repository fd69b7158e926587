/** Values shared by the page-group model: locales, entry statuses, errors, stored
    content and the public projection rows that readers are served from. */
module ContentModel {

  datatype Option<+T> = None | Some(value: T)

  datatype Locale = ZhHant | ZhHans | En | Ja | Ko

  const FIVE_LOCALES: set<Locale> := {ZhHant, ZhHans, En, Ja, Ko}

  datatype Status =
    | Draft | Publishing | Published | PublishFailed
    | Unpublishing | UnpublishFailed | Unpublished | PendingRemoval

  /** `Duplicate` is the primary-key violation a second insert of the same row raises. */
  datatype Error =
    | NotFound | Precondition | Conflict | NotPublishable | Invalid | Stale | Duplicate

  /** A repository call: either the new tables, or an error and no change. */
  datatype Result<+T> = Ok(value: T) | Err(error: Error) {
    predicate IsFailure() {
      Err?
    }

    function PropagateFailure<U>(): Result<U>
      requires Err?
    {
      Err(error)
    }

    function Extract(): T
      requires Ok?
    {
      value
    }
  }

  /** How a remote call or a commit can end: well, lost before it took effect, or lost after. */
  datatype Fault = Fine | LostBefore | LostAfter

  datatype EventStatus = Waiting | Processing | Delivered | FailedEvent

  /** What looking an asset up before publishing says about it. `Terminal` also stands for an
      asset that fails its owner's contract; `overdue` for an event past the readiness deadline. */
  datatype AssetReply = Ready | Transient | Terminal | NotReady(overdue: bool)

  /** How processNext disposes of an error. */
  datatype Verdict = ToRetry | ToDefer | ToFail

  /** The error a handler hands back to processNext. `StaleError` never reaches it. */
  datatype Failure = NoError | OrdinaryError | PendingError(overdue: bool) | TerminalError | CompensationError | StaleError

  /** How processNext disposes of an error after `attempts` claims. */
  function Disposal(max: nat, failure: Failure, attempts: nat): Verdict {
    match failure
    case PendingError(overdue) => if overdue then ToFail else ToDefer
    case TerminalError => ToFail
    case CompensationError => ToRetry
    case _ => if attempts >= max then ToFail else ToRetry
  }

  type Id = string
  type Version = nat

  datatype GroupKind = Home | About

  datatype Template = HomeV1 | HomeV2 | AboutV1

  /** The typed columns of a video or history entry, and its translations. A video has a YouTube
      id, which the schema keeps unique among videos; a history entry has none. */
  datatype Content = Content(youtubeId: Option<string>, fields: string, translations: map<Locale, string>)

  /** The typed columns of a grouped page; `banner` is the empty string when no asset is set. */
  datatype PageContent = PageContent(
    template: Template,
    indexable: bool,
    banner: string,
    settings: string,
    translations: map<Locale, string>)

  datatype Payload =
    | ChildPayload(youtubeId: Option<string>, fields: string, text: string)
    | PagePayload(template: Template, indexable: bool, settings: string, text: string, bannerUrl: string)

  /** One row of `public_projection`. The rows of a resource are keyed by locale. */
  datatype Row = Row(version: Version, payload: Payload)

  type Rows = map<Locale, Row>

  predicate Busy(status: Status) {
    status.Publishing? || status.Unpublishing?
  }

  /** MIN(version) = MAX(version) over the rows of one resource. */
  predicate Uniform(rows: Rows) {
    forall l, k | l in rows && k in rows :: rows[l].version == rows[k].version
  }

  /** The version of the first row present; of every row when the rows are uniform. */
  function VersionOf(rows: Rows): Version
    requires rows != map[]
  {
    if ZhHant in rows then rows[ZhHant].version
    else if ZhHans in rows then rows[ZhHans].version
    else if En in rows then rows[En].version
    else if Ja in rows then rows[Ja].version
    else
      assert Ko in rows by { var l :| l in rows.Keys; assert l.Ko?; }
      rows[Ko].version
  }

  /** Exactly the five locales, all at version `v`. */
  predicate CompleteAt(rows: Rows, v: Version) {
    rows.Keys == FIVE_LOCALES && forall l | l in rows :: rows[l].version == v
  }

  /** strings.Compare(a, b) < 0 */
  predicate Less(a: string, b: string)
    decreases a
  {
    if b == "" then false
    else if a == "" then true
    else a[0] < b[0] || (a[0] == b[0] && Less(a[1..], b[1..]))
  }

  lemma {:induction false} LessIsTotal(a: string, b: string)
    ensures a == b || Less(a, b) || Less(b, a)
    ensures !(Less(a, b) && Less(b, a))
    ensures !Less(a, a)
    decreases a
  {
    if a != "" && b != "" {
      assert a == [a[0]] + a[1..] && b == [b[0]] + b[1..];
      LessIsTotal(a[1..], b[1..]);
    }
    if a != "" { LessIsTotal(a[1..], a[1..]); }
  }

  lemma {:induction false} LessIsTransitive(a: string, b: string, c: string)
    requires Less(a, b) && Less(b, c)
    ensures Less(a, c)
    decreases a
  {
    if a != "" && a[0] == b[0] && b[0] == c[0] { LessIsTransitive(a[1..], b[1..], c[1..]); }
  }

  /** Some id of the set comes before all others. */
  lemma {:induction false} LeastExists(ids: set<Id>) returns (least: Id)
    requires ids != {}
    ensures least in ids && forall other | other in ids :: !Less(other, least)
    decreases |ids|
  {
    least :| least in ids;
    LessIsTotal(least, least);
    if ids != {least} {
      var rest := LeastExists(ids - {least});
      LessIsTotal(least, rest);
      if Less(rest, least) {
        least := rest;
      } else {
        forall other | other in ids ensures !Less(other, least) {
          LessIsTotal(other, rest);
          if Less(other, least) && Less(least, rest) { LessIsTransitive(other, least, rest); }
        }
      }
    }
  }

  /** What a reader sees of some rows once version numbers are ignored. */
  function Visible(rows: Rows): map<Locale, Payload> {
    map l | l in rows :: rows[l].payload
  }

  /** An element of a set that a loop has not visited yet. */
  method Following<K(==)>(all: set<K>, done: set<K>) returns (next: K)
    requires done < all
    ensures next in all && next !in done
  {
    assert exists k :: k in all && k !in done;
    next :| next in all && next !in done;
  }

  lemma CompleteRowsAreUniform(rows: Rows, v: Version)
    requires CompleteAt(rows, v)
    ensures rows != map[] && Uniform(rows) && VersionOf(rows) == v
  {
    assert ZhHant in rows;
  }
}
