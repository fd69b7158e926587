/** Content seeding: a validated manifest is planned against what exists, applied in one
    transaction with provenance for every record, and recorded as an attempt. */
module ContentSeed {
  import opened ContentModel

  datatype Kind = LocationKind | SiteLayoutKind | PageKind | UnknownKind(name: string)

  datatype Source = Source(path: string, sha: string)

  datatype Record = Record(kind: Kind, paths: seq<string>, key: string, payload: string)

  datatype Manifest = Manifest(
    schemaVersion: int, seedVersion: string, commit: string, locales: seq<string>,
    sources: seq<Source>, records: seq<Record>)

  // ---------------------------------------------------------------- validation

  const LOCALE_NAMES: seq<string> := ["zh-Hant", "zh-Hans", "en", "ja", "ko"]

  predicate LowerHex(value: string, length: nat) {
    |value| == length && forall i | 0 <= i < |value| :: '0' <= value[i] <= '9' || 'a' <= value[i] <= 'f'
  }

  predicate ValidSources(sources: seq<Source>) {
    && (forall i | 0 <= i < |sources| :: sources[i].path != "" && LowerHex(sources[i].sha, 64))
    && forall i, j | 0 <= i < j < |sources| :: sources[i].path != sources[j].path
  }

  predicate IsSource(sources: seq<Source>, path: string) {
    exists i | 0 <= i < |sources| :: sources[i].path == path
  }

  predicate ValidRecord(sources: seq<Source>, record: Record) {
    && !record.kind.UnknownKind? && record.key != "" && record.paths != []
    && (forall i | 0 <= i < |record.paths| :: record.paths[i] != "" && IsSource(sources, record.paths[i]))
    && forall i, j | 0 <= i < j < |record.paths| :: record.paths[i] != record.paths[j]
  }

  /** Two records share neither kind and key, nor a source path under the same key. */
  predicate Apart(a: Record, b: Record) {
    && !(a.kind == b.kind && a.key == b.key)
    && forall i, j | 0 <= i < |a.paths| && 0 <= j < |b.paths| :: !(a.paths[i] == b.paths[j] && a.key == b.key)
  }

  predicate ValidManifest(m: Manifest) {
    && m.schemaVersion == 1 && m.locales == LOCALE_NAMES && LowerHex(m.commit, 40)
    && ValidSources(m.sources)
    && (forall i | 0 <= i < |m.records| :: ValidRecord(m.sources, m.records[i]))
    && forall i, j | 0 <= i < j < |m.records| :: Apart(m.records[i], m.records[j])
  }

  // ---------------------------------------------------------------- tables and plan

  datatype RunStatus = Started | Succeeded | Failed

  datatype Run = Run(seedVersion: string, sha: string, status: RunStatus, inserts: nat, skips: nat)

  /** A provenance row; `run` is the position of its run. */
  datatype Provenance = Provenance(run: nat, path: string, key: string, recordSha: nat, kind: Kind, target: Id, inserted: bool)

  datatype Tables = Tables(targets: map<(Kind, string), Id>, runs: seq<Run>, provenance: set<Provenance>)

  datatype Action = Insert | Skip | Conflicts

  datatype Planned = Planned(sha: nat, action: Action, target: Option<Id>)

  /** What decoding a valid payload gives: the key it implies and its canonical hash. */
  datatype Codec = Codec(decode: (Kind, string) -> Option<(string, nat)>)

  predicate HasProvenance(t: Tables, kind: Kind, key: string, sha: nat, target: Id) {
    exists p | p in t.provenance ::
      && p.run < |t.runs| && t.runs[p.run].status.Succeeded?
      && p.kind == kind && p.key == key && p.recordSha == sha && p.target == target
  }

  function PlanRecord(codec: Codec, t: Tables, record: Record): Result<Planned> {
    var decoded := codec.decode(record.kind, record.payload);
    if record.kind.UnknownKind? || decoded.None? || decoded.value.0 != record.key then Err(Invalid)
    else
      var sha := decoded.value.1;
      if (record.kind, record.key) !in t.targets then Ok(Planned(sha, Insert, None))
      else
        var target := t.targets[(record.kind, record.key)];
        Ok(Planned(sha, if HasProvenance(t, record.kind, record.key, sha, target) then Skip else Conflicts, Some(target)))
  }

  predicate Plannable(codec: Codec, t: Tables, records: seq<Record>) {
    forall i | 0 <= i < |records| :: PlanRecord(codec, t, records[i]).Ok?
  }

  function PlanOf(codec: Codec, t: Tables, records: seq<Record>): (planned: seq<Planned>)
    requires Plannable(codec, t, records)
  {
    seq(|records|, i requires 0 <= i < |records| => PlanRecord(codec, t, records[i]).value)
  }

  function CountOf(planned: seq<Planned>, action: Action): nat {
    if planned == [] then 0 else CountOf(planned[..|planned| - 1], action) + if planned[|planned| - 1].action == action then 1 else 0
  }

  // ---------------------------------------------------------------- apply

  function TargetOf(planned: Planned, id: Id): Id {
    if planned.action.Insert? || planned.target.None? then id else planned.target.value
  }

  /** Targets after the first `n` records; `ids` are the fresh ids inserts are given. */
  function TargetsAfter(t: Tables, records: seq<Record>, planned: seq<Planned>, ids: seq<Id>, n: nat): map<(Kind, string), Id>
    requires n <= |records| == |planned| == |ids|
  {
    if n == 0 then t.targets
    else
      var before := TargetsAfter(t, records, planned, ids, n - 1);
      if planned[n - 1].action.Insert? then before[(records[n - 1].kind, records[n - 1].key) := ids[n - 1]] else before
  }

  function ProvenanceOf(run: nat, record: Record, planned: Planned, id: Id): set<Provenance> {
    set i | 0 <= i < |record.paths| ::
      Provenance(run, record.paths[i], record.key, planned.sha, record.kind, TargetOf(planned, id), planned.action.Insert?)
  }

  function ProvenanceAfter(t: Tables, run: nat, records: seq<Record>, planned: seq<Planned>, ids: seq<Id>, n: nat): set<Provenance>
    requires n <= |records| == |planned| == |ids|
  {
    if n == 0 then t.provenance
    else ProvenanceAfter(t, run, records, planned, ids, n - 1) + ProvenanceOf(run, records[n - 1], planned[n - 1], ids[n - 1])
  }

  datatype Report = Report(inserts: nat, skips: nat)

  /** The succeeded run of a seed version, if there is one. */
  function Prior(runs: seq<Run>, seedVersion: string): Option<Run> {
    if runs == [] then None
    else if runs[0].status.Succeeded? && runs[0].seedVersion == seedVersion then Some(runs[0])
    else Prior(runs[1..], seedVersion)
  }

  /** Where the database lets the attempt down: at a record, or at the commit; and whether the
      attempt can then still be marked as failed. */
  datatype Trouble = NoTrouble | AtRecord(n: nat, marked: bool) | AtCommit(fault: Fault, marked: bool)

  /** What is left of an attempt that was rolled back. */
  function Ended(trouble: Trouble): RunStatus {
    if trouble.NoTrouble? || trouble.marked then Failed else Started
  }

  function Attempted(t: Tables, run: Run): Tables {
    t.(runs := t.runs + [run])
  }

  function Done(codec: Codec, t: Tables, m: Manifest, sha: string, ids: seq<Id>): Tables
    requires Plannable(codec, t, m.records) && |ids| == |m.records|
  {
    var planned := PlanOf(codec, t, m.records);
    Tables(TargetsAfter(t, m.records, planned, ids, |m.records|),
           t.runs + [Run(m.seedVersion, sha, Succeeded, CountOf(planned, Insert), CountOf(planned, Skip))],
           ProvenanceAfter(t, |t.runs|, m.records, planned, ids, |m.records|))
  }

  function Apply(codec: Codec, t: Tables, m: Manifest, sha: string, ids: seq<Id>, trouble: Trouble): (Tables, Result<Report>)
    requires |ids| == |m.records|
  {
    var prior := Prior(t.runs, m.seedVersion);
    if prior.Some? then
      (t, if prior.value.sha != sha then Err(Conflict) else Ok(Report(prior.value.inserts, prior.value.skips)))
    else if !Plannable(codec, t, m.records) then (t, Err(Invalid))
    else
      var planned := PlanOf(codec, t, m.records);
      if CountOf(planned, Conflicts) != 0 then (t, Err(Precondition))
      else if (trouble.AtRecord? && trouble.n < |m.records|) || (trouble.AtCommit? && trouble.fault.LostBefore?) then
        (Attempted(t, Run(m.seedVersion, sha, Ended(trouble), 0, 0)), Err(Stale))
      else
        (Done(codec, t, m, sha, ids),
         if trouble.AtCommit? && trouble.fault.LostAfter? then Err(Stale) else Ok(Report(CountOf(planned, Insert), CountOf(planned, Skip))))
  }

  // ---------------------------------------------------------------- idempotence

  lemma {:induction false} PriorAppend(runs: seq<Run>, run: Run, seedVersion: string)
    ensures Prior(runs + [run], seedVersion) ==
      if Prior(runs, seedVersion).Some? then Prior(runs, seedVersion)
      else if run.status.Succeeded? && run.seedVersion == seedVersion then Some(run) else None
    decreases |runs|
  {
    if runs == [] {
      assert ([] + [run])[0] == run;
    } else {
      assert (runs + [run])[0] == runs[0] && (runs + [run])[1..] == runs[1..] + [run];
      PriorAppend(runs[1..], run, seedVersion);
    }
  }

  /** A successful application makes the next one, whatever happens to it, a no-op that returns
      the stored counts. A different manifest under the same seed version is refused. */
  lemma ReapplyIsNoOp(codec: Codec, t: Tables, m: Manifest, sha: string, ids: seq<Id>, trouble: Trouble,
                      again: Manifest, otherSha: string, moreIds: seq<Id>, later: Trouble)
    requires |ids| == |m.records| && |moreIds| == |again.records| && again.seedVersion == m.seedVersion
    requires Apply(codec, t, m, sha, ids, trouble).1.Ok?
    ensures var (after, report) := Apply(codec, t, m, sha, ids, trouble);
      Apply(codec, after, again, otherSha, moreIds, later) == (after, if otherSha == sha then report else Err(Conflict))
  {
    if Prior(t.runs, m.seedVersion).None? {
      var planned := PlanOf(codec, t, m.records);
      PriorAppend(t.runs, Run(m.seedVersion, sha, Succeeded, CountOf(planned, Insert), CountOf(planned, Skip)), m.seedVersion);
    }
  }

  /** An application whose commit took effect but reported an error is found by the next one,
      which reports its counts and changes nothing. */
  lemma LostCommitIsFound(codec: Codec, t: Tables, m: Manifest, sha: string, ids: seq<Id>, marked: bool, moreIds: seq<Id>, later: Trouble)
    requires |ids| == |m.records| == |moreIds| && Prior(t.runs, m.seedVersion).None?
    requires Apply(codec, t, m, sha, ids, NoTrouble).1.Ok?
    ensures var after := Apply(codec, t, m, sha, ids, AtCommit(LostAfter, marked)).0;
      Apply(codec, after, m, sha, moreIds, later) == (after, Apply(codec, t, m, sha, ids, NoTrouble).1)
  {
    ReapplyIsNoOp(codec, t, m, sha, ids, NoTrouble, m, sha, moreIds, later);
  }

  /** An application that reports an error changed nothing, or left just an attempt, failed or
      still marked as started, or had in fact been committed. */
  lemma FailureLeavesAnAttempt(codec: Codec, t: Tables, m: Manifest, sha: string, ids: seq<Id>, trouble: Trouble)
    requires |ids| == |m.records| && Apply(codec, t, m, sha, ids, trouble).1.Err?
    ensures var after := Apply(codec, t, m, sha, ids, trouble).0;
      || after == t
      || after == Attempted(t, Run(m.seedVersion, sha, if trouble.marked then Failed else Started, 0, 0))
      || (trouble.AtCommit? && trouble.fault.LostAfter? && after == Apply(codec, t, m, sha, ids, NoTrouble).0)
  {
  }

  /** An attempt that did not succeed is no obstacle, be it failed or left as started: trying
      again goes as if it had not been made. */
  lemma FailedAttemptsDoNotCount(codec: Codec, t: Tables, m: Manifest, sha: string, ids: seq<Id>, trouble: Trouble, run: Run)
    requires |ids| == |m.records| && !run.status.Succeeded? && WellFormed(t)
    ensures Apply(codec, Attempted(t, run), m, sha, ids, trouble).1 == Apply(codec, t, m, sha, ids, trouble).1
  {
    PriorAppend(t.runs, run, m.seedVersion);
    forall i | 0 <= i < |m.records| ensures PlanRecord(codec, Attempted(t, run), m.records[i]) == PlanRecord(codec, t, m.records[i]) {
      AttemptKeepsPlan(codec, t, run, m.records[i]);
    }
    if Plannable(codec, t, m.records) {
      assert PlanOf(codec, Attempted(t, run), m.records) == PlanOf(codec, t, m.records);
    }
  }

  lemma AttemptKeepsPlan(codec: Codec, t: Tables, run: Run, record: Record)
    requires !run.status.Succeeded? && WellFormed(t)
    ensures PlanRecord(codec, Attempted(t, run), record) == PlanRecord(codec, t, record)
  {
    if PlanRecord(codec, t, record).Ok? && (record.kind, record.key) in t.targets {
      var sha, target := codec.decode(record.kind, record.payload).value.1, t.targets[(record.kind, record.key)];
      if p :| p in t.provenance && p.run < |t.runs| && t.runs[p.run].status.Succeeded?
              && p.kind == record.kind && p.key == record.key && p.recordSha == sha && p.target == target {
        assert Attempted(t, run).runs[p.run].status.Succeeded?;
        assert HasProvenance(Attempted(t, run), record.kind, record.key, sha, target);
      }
      if p :| p in t.provenance && p.run < |t.runs| + 1 && Attempted(t, run).runs[p.run].status.Succeeded?
              && p.kind == record.kind && p.key == record.key && p.recordSha == sha && p.target == target {
        assert t.runs[p.run].status.Succeeded?;
        assert HasProvenance(t, record.kind, record.key, sha, target);
      }
    }
  }

  /** Provenance rows belong to a run, and each seed version succeeds at most once. */
  ghost predicate WellFormed(t: Tables) {
    && (forall p | p in t.provenance :: p.run < |t.runs|)
    && forall i, j | 0 <= i < j < |t.runs| && t.runs[i].status.Succeeded? && t.runs[j].status.Succeeded? ::
         t.runs[i].seedVersion != t.runs[j].seedVersion
  }

  lemma {:induction false} NoPrior(runs: seq<Run>, seedVersion: string)
    requires Prior(runs, seedVersion).None?
    ensures forall i | 0 <= i < |runs| && runs[i].status.Succeeded? :: runs[i].seedVersion != seedVersion
    decreases |runs|
  {
    if runs != [] {
      NoPrior(runs[1..], seedVersion);
      forall i | 0 <= i < |runs| && runs[i].status.Succeeded? ensures runs[i].seedVersion != seedVersion {
        if i > 0 { assert runs[1..][i - 1] == runs[i]; }
      }
    }
  }

  lemma {:induction false} ProvenanceRuns(t: Tables, run: nat, records: seq<Record>, planned: seq<Planned>, ids: seq<Id>, n: nat)
    requires n <= |records| == |planned| == |ids|
    ensures forall p | p in ProvenanceAfter(t, run, records, planned, ids, n) :: p in t.provenance || p.run == run
    ensures t.provenance <= ProvenanceAfter(t, run, records, planned, ids, n)
    ensures forall i | 0 <= i < n :: ProvenanceOf(run, records[i], planned[i], ids[i]) <= ProvenanceAfter(t, run, records, planned, ids, n)
    decreases n
  {
    if n > 0 { ProvenanceRuns(t, run, records, planned, ids, n - 1); }
  }

  lemma ApplyKeepsWellFormed(codec: Codec, t: Tables, m: Manifest, sha: string, ids: seq<Id>, trouble: Trouble)
    requires |ids| == |m.records| && WellFormed(t)
    ensures WellFormed(Apply(codec, t, m, sha, ids, trouble).0)
  {
    if Prior(t.runs, m.seedVersion).None? && Plannable(codec, t, m.records) {
      NoPrior(t.runs, m.seedVersion);
      ProvenanceRuns(t, |t.runs|, m.records, PlanOf(codec, t, m.records), ids, |m.records|);
    }
  }

  // ---------------------------------------------------------------- larger manifests

  /** Later tables: runs and provenance are kept, and more may have come. */
  ghost predicate Later(t: Tables, u: Tables) {
    t.provenance <= u.provenance && |t.runs| <= |u.runs| && forall i | 0 <= i < |t.runs| :: u.runs[i] == t.runs[i]
  }

  /** The id record `i` was applied to. */
  function AppliedTo(codec: Codec, t: Tables, m: Manifest, ids: seq<Id>, i: nat): Id
    requires Plannable(codec, t, m.records) && i < |m.records| == |ids|
  {
    TargetOf(PlanOf(codec, t, m.records)[i], ids[i])
  }

  /** After a successful application, in any later tables, planning any manifest that has the
      record again skips it as long as its target is still the one it was applied to. */
  lemma AppliedRecordsAreSkipped(codec: Codec, t: Tables, m: Manifest, sha: string, ids: seq<Id>, u: Tables, larger: Manifest, i: nat, k: nat)
    requires ValidManifest(m) && |ids| == |m.records| && Prior(t.runs, m.seedVersion).None?
    requires Apply(codec, t, m, sha, ids, NoTrouble).1.Ok? && Later(Apply(codec, t, m, sha, ids, NoTrouble).0, u)
    requires i < |m.records| && k < |larger.records| && larger.records[k].(paths := m.records[i].paths) == m.records[i]
    requires Plannable(codec, u, larger.records)
    requires (m.records[i].kind, m.records[i].key) in u.targets
    requires u.targets[(m.records[i].kind, m.records[i].key)] == AppliedTo(codec, t, m, ids, i)
    ensures PlanOf(codec, u, larger.records)[k].action == Skip
  {
    var planned := PlanOf(codec, t, m.records);
    var record := m.records[i];
    ProvenanceRuns(t, |t.runs|, m.records, planned, ids, |m.records|);
    assert ValidRecord(m.sources, record);
    var p := Provenance(|t.runs|, record.paths[0], record.key, planned[i].sha, record.kind, TargetOf(planned[i], ids[i]), planned[i].action.Insert?);
    assert p in ProvenanceOf(|t.runs|, record, planned[i], ids[i]);
    assert p in u.provenance && u.runs[p.run].status.Succeeded?;
    assert HasProvenance(u, record.kind, record.key, planned[i].sha, AppliedTo(codec, t, m, ids, i));
  }

  /** Why validation insists on source paths: without one a record leaves no provenance, and
      planning it again over its own target is a conflict. */
  lemma NoPathsNoProvenance(codec: Codec, key: string, payload: string, sha: nat, id: Id)
    requires codec.decode(PageKind, payload) == Some((key, sha))
    ensures var record := Record(PageKind, [], key, payload);
      var m := Manifest(1, "v1", "", LOCALE_NAMES, [], [record]);
      var t := Tables(map[], [], {});
      var (after, report) := Apply(codec, t, m, "sha", [id], NoTrouble);
      && report == Ok(Report(1, 0)) && !ValidManifest(m)
      && PlanRecord(codec, after, record) == Ok(Planned(sha, Conflicts, Some(id)))
  {
    var record := Record(PageKind, [], key, payload);
    var m := Manifest(1, "v1", "", LOCALE_NAMES, [], [record]);
    var t := Tables(map[], [], {});
    var planned := PlanOf(codec, t, m.records);
    assert planned == [Planned(sha, Insert, None)];
    assert planned[..|planned| - 1] == [];
    assert CountOf(planned, Insert) == 1 && CountOf(planned, Skip) == 0 && CountOf(planned, Conflicts) == 0;
    assert ProvenanceOf(0, record, planned[0], id) == {};
    assert ProvenanceAfter(t, 0, m.records, planned, [id], 0) == {};
    assert ProvenanceAfter(t, 0, m.records, planned, [id], 1) == {};
    assert TargetsAfter(t, m.records, planned, [id], 0) == map[];
    assert TargetsAfter(t, m.records, planned, [id], 1) == map[(PageKind, key) := id];
  }

  // ---------------------------------------------------------------- imperative form

  /** validateManifest */
  method ValidateManifest(m: Manifest) returns (valid: bool)
    ensures valid == ValidManifest(m)
  {
    if m.schemaVersion != 1 || m.locales != LOCALE_NAMES || !LowerHex(m.commit, 40) { return false; }
    var paths: set<string> := {};
    for i := 0 to |m.sources|
      invariant paths == set k | 0 <= k < i :: m.sources[k].path
      invariant ValidSources(m.sources[..i])
    {
      var source := m.sources[i];
      if source.path == "" || !LowerHex(source.sha, 64) || source.path in paths { return false; }
      paths := paths + {source.path};
    }
    assert m.sources[..|m.sources|] == m.sources;
    for i := 0 to |m.records|
      invariant forall k | 0 <= k < i :: ValidRecord(m.sources, m.records[k])
      invariant forall j, k | 0 <= j < k < i :: Apart(m.records[j], m.records[k])
    {
      var record := m.records[i];
      if record.kind.UnknownKind? || record.key == "" || |record.paths| == 0 { return false; }
      var pathsOk := ValidatePaths(m.sources, paths, record);
      if !pathsOk { return false; }
      var apart := ApartFromEarlier(m.records, i);
      if !apart { return false; }
    }
    return true;
  }

  method ValidatePaths(sources: seq<Source>, paths: set<string>, record: Record) returns (valid: bool)
    requires paths == set k | 0 <= k < |sources| :: sources[k].path
    requires !record.kind.UnknownKind? && record.key != "" && record.paths != []
    ensures valid == ValidRecord(sources, record)
  {
    var seen: set<string> := {};
    for i := 0 to |record.paths|
      invariant seen == set k | 0 <= k < i :: record.paths[k]
      invariant forall k | 0 <= k < i :: record.paths[k] != "" && IsSource(sources, record.paths[k])
      invariant forall j, k | 0 <= j < k < i :: record.paths[j] != record.paths[k]
    {
      var path := record.paths[i];
      if path in seen || path == "" || path !in paths { return false; }
      seen := seen + {path};
    }
    return true;
  }

  method ApartFromEarlier(records: seq<Record>, i: nat) returns (apart: bool)
    requires i < |records|
    ensures apart <==> forall k | 0 <= k < i :: Apart(records[k], records[i])
  {
    for k := 0 to i
      invariant forall j | 0 <= j < k :: Apart(records[j], records[i])
    {
      if !Apart(records[k], records[i]) { return false; }
    }
    return true;
  }

  class Seeder {
    const codec: Codec
    var tables: Tables

    constructor (codec: Codec, tables: Tables)
      ensures this.codec == codec && this.tables == tables
    {
      this.codec := codec;
      this.tables := tables;
    }

    /** plan: one record after the other, counting the actions. */
    method PlanManifest(records: seq<Record>) returns (result: Result<seq<Planned>>, inserts: nat, skips: nat, conflicts: nat)
      ensures result.Ok? <==> Plannable(codec, tables, records)
      ensures result.Ok? ==> result.value == PlanOf(codec, tables, records)
      ensures result.Ok? ==>
        inserts == CountOf(result.value, Insert) && skips == CountOf(result.value, Skip) && conflicts == CountOf(result.value, Conflicts)
    {
      var planned: seq<Planned> := [];
      inserts, skips, conflicts := 0, 0, 0;
      for i := 0 to |records|
        invariant |planned| == i
        invariant forall k | 0 <= k < i :: PlanRecord(codec, tables, records[k]) == Ok(planned[k])
        invariant inserts == CountOf(planned, Insert) && skips == CountOf(planned, Skip) && conflicts == CountOf(planned, Conflicts)
      {
        var one := PlanRecord(codec, tables, records[i]);
        if one.Err? { return Err(one.error), 0, 0, 0; }
        ghost var before := planned;
        planned := planned + [one.value];
        assert planned[..|planned| - 1] == before;
        match one.value.action {
          case Insert => inserts := inserts + 1;
          case Skip => skips := skips + 1;
          case Conflicts => conflicts := conflicts + 1;
        }
      }
      return Ok(planned), inserts, skips, conflicts;
    }

    /** The loop over records, which may fail at any of them. */
    method WriteRecords(t: Tables, ghost start: Tables, run: nat, records: seq<Record>, planned: seq<Planned>, ids: seq<Id>, trouble: Trouble)
      returns (written: Option<Tables>)
      requires |records| == |planned| == |ids| && t == start.(runs := t.runs)
      ensures written.None? <==> trouble.AtRecord? && trouble.n < |records|
      ensures written.Some? ==> written.value == t.(
        targets := TargetsAfter(start, records, planned, ids, |records|),
        provenance := ProvenanceAfter(start, run, records, planned, ids, |records|))
    {
      hide ProvenanceOf;
      var tx := t;
      for i := 0 to |records|
        invariant tx == t.(targets := TargetsAfter(start, records, planned, ids, i), provenance := ProvenanceAfter(start, run, records, planned, ids, i))
        invariant trouble.AtRecord? ==> i <= trouble.n
      {
        if trouble.AtRecord? && trouble.n == i { return None; }
        if planned[i].action.Insert? {
          tx := tx.(targets := tx.targets[(records[i].kind, records[i].key) := TargetOf(planned[i], ids[i])]);
        }
        tx := tx.(provenance := tx.provenance + ProvenanceOf(run, records[i], planned[i], ids[i]));
      }
      return Some(tx);
    }

    /** apply */
    method ApplyManifest(m: Manifest, sha: string, ids: seq<Id>, trouble: Trouble) returns (result: Result<Report>)
      requires |ids| == |m.records|
      modifies this
      ensures (tables, result) == Apply(codec, old(tables), m, sha, ids, trouble)
    {
      hide PlanRecord, HasProvenance;
      var prior := Prior(tables.runs, m.seedVersion);
      if prior.Some? {
        if prior.value.sha != sha { return Err(Conflict); }
        return Ok(Report(prior.value.inserts, prior.value.skips));
      }
      var planned, inserts, skips, conflicts := PlanManifest(m.records);
      if planned.Err? { return Err(Invalid); }
      if conflicts != 0 { return Err(Precondition); }
      var run := |tables.runs|;
      ghost var start := tables;
      tables := tables.(runs := tables.runs + [Run(m.seedVersion, sha, Started, 0, 0)]);
      var written := WriteRecords(tables, start, run, m.records, planned.value, ids, trouble);
      if written.None? {
        FailAttempt(run, trouble.marked);
        assert tables.runs == start.runs + [Run(m.seedVersion, sha, Ended(trouble), 0, 0)];
        return Err(Stale);
      }
      var tx := written.value;
      tx := tx.(runs := tx.runs[run := tx.runs[run].(status := Succeeded, inserts := inserts, skips := skips)]);
      if trouble.AtCommit? && trouble.fault.LostBefore? {
        FailAttempt(run, trouble.marked);
        assert tables.runs == start.runs + [Run(m.seedVersion, sha, Ended(trouble), 0, 0)];
        return Err(Stale);
      }
      tables := tx;
      assert tables.runs == start.runs + [Run(m.seedVersion, sha, Succeeded, inserts, skips)];
      if trouble.AtCommit? && trouble.fault.LostAfter? {
        FailAttempt(run, trouble.marked);
        return Err(Stale);
      }
      return Ok(Report(inserts, skips));
    }

    /** failAttempt: only a run that is still started is marked, and that can fail too. */
    method FailAttempt(run: nat, marked: bool)
      requires run < |tables.runs|
      modifies this
      ensures tables == if marked && old(tables).runs[run].status.Started?
                        then old(tables).(runs := old(tables).runs[run := old(tables).runs[run].(status := Failed)])
                        else old(tables)
    {
      if marked && tables.runs[run].status.Started? {
        tables := tables.(runs := tables.runs[run := tables.runs[run].(status := Failed)]);
      }
    }
  }
}
