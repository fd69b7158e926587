/** What a record's plan says about the past: which applications of which manifests make a
    record count as applied, over any history of seeding and of changes by others. */
module SeedHistory {
  import opened ContentModel
  import opened ContentSeed

  datatype Step =
    | Seeding(m: Manifest, sha: string, ids: seq<Id>, trouble: Trouble)
    | Editing(targets: map<(Kind, string), Id>)

  /** One application of a manifest, refused if the manifest is not valid; or others creating,
      removing and replacing targets as they like. */
  function After(codec: Codec, t: Tables, step: Step): Tables {
    match step
    case Seeding(m, sha, ids, trouble) =>
      if ValidManifest(m) && |ids| == |m.records| then Apply(codec, t, m, sha, ids, trouble).0 else t
    case Editing(targets) => t.(targets := targets)
  }

  function TablesAt(codec: Codec, start: Tables, steps: seq<Step>): Tables
    decreases |steps|
  {
    if steps == [] then start else After(codec, TablesAt(codec, start, steps[..|steps| - 1]), steps[|steps| - 1])
  }

  /** The step is an application that went through. */
  predicate Commits(codec: Codec, t: Tables, step: Step) {
    && step.Seeding?
    && |After(codec, t, step).runs| == |t.runs| + 1 && After(codec, t, step).runs[|t.runs|].status.Succeeded?
  }

  /** The step applied a record of this kind, key and content, and `target` is what it then had. */
  ghost predicate Applies(codec: Codec, t: Tables, step: Step, kind: Kind, key: string, sha: nat, target: Id) {
    && Commits(codec, t, step)
    && (exists i | 0 <= i < |step.m.records| ::
          step.m.records[i].kind == kind && codec.decode(kind, step.m.records[i].payload) == Some((key, sha)) && step.m.records[i].key == key)
    && (kind, key) in After(codec, t, step).targets && After(codec, t, step).targets[(kind, key)] == target
  }

  lemma {:induction false} NoneCounted(planned: seq<Planned>, action: Action)
    requires CountOf(planned, action) == 0
    ensures forall i | 0 <= i < |planned| :: planned[i].action != action
    decreases |planned|
  {
    if planned != [] {
      var rest := planned[..|planned| - 1];
      NoneCounted(rest, action);
      forall i | 0 <= i < |planned| ensures planned[i].action != action {
        if i < |planned| - 1 { assert rest[i] == planned[i]; }
      }
    }
  }

  lemma {:induction false} ProvenanceFrom(t: Tables, run: nat, records: seq<Record>, planned: seq<Planned>, ids: seq<Id>, n: nat, p: Provenance)
    requires n <= |records| == |planned| == |ids| && p in ProvenanceAfter(t, run, records, planned, ids, n) && p !in t.provenance
    ensures exists i | 0 <= i < n :: p in ProvenanceOf(run, records[i], planned[i], ids[i])
    decreases n
  {
    if p !in ProvenanceOf(run, records[n - 1], planned[n - 1], ids[n - 1]) { ProvenanceFrom(t, run, records, planned, ids, n - 1, p); }
  }

  /** Inserts get their ids; every other key keeps its target. */
  lemma {:induction false} TargetsAre(t: Tables, records: seq<Record>, planned: seq<Planned>, ids: seq<Id>, n: nat, i: nat)
    requires n <= |records| == |planned| == |ids| && i < |records|
    requires forall i, j | 0 <= i < j < |records| :: Apart(records[i], records[j])
    ensures var after, key := TargetsAfter(t, records, planned, ids, n), (records[i].kind, records[i].key);
      if i < n && planned[i].action.Insert? then key in after && after[key] == ids[i]
      else (key in after <==> key in t.targets) && (key in t.targets ==> after[key] == t.targets[key])
    decreases n
  {
    if n > 0 {
      TargetsAre(t, records, planned, ids, n - 1, i);
      if i < n - 1 { assert Apart(records[i], records[n - 1]); }
      if n - 1 < i { assert Apart(records[n - 1], records[i]); }
    }
  }

  /** Planned against the tables, a record that is no conflict keeps or gets its target. */
  lemma AppliedTarget(codec: Codec, t: Tables, m: Manifest, sha: string, ids: seq<Id>, i: nat)
    requires ValidManifest(m) && Plannable(codec, t, m.records) && |ids| == |m.records| && i < |m.records|
    requires !PlanOf(codec, t, m.records)[i].action.Conflicts?
    ensures var record, planned := m.records[i], PlanOf(codec, t, m.records)[i];
      var targets := Done(codec, t, m, sha, ids).targets;
      && (record.kind, record.key) in targets && targets[(record.kind, record.key)] == TargetOf(planned, ids[i])
      && codec.decode(record.kind, record.payload) == Some((record.key, planned.sha))
  {
    var record := m.records[i];
    assert PlanRecord(codec, t, record).Ok?;
    TargetsAre(t, m.records, PlanOf(codec, t, m.records), ids, |m.records|, i);
  }

  /** An application that goes through records exactly what it applied. */
  lemma DoneRecords(codec: Codec, t: Tables, m: Manifest, sha: string, ids: seq<Id>, kind: Kind, key: string, recordSha: nat, target: Id)
    requires ValidManifest(m) && Plannable(codec, t, m.records) && |ids| == |m.records| && WellFormed(t)
    requires CountOf(PlanOf(codec, t, m.records), Conflicts) == 0
    ensures var u := Done(codec, t, m, sha, ids);
      HasProvenance(u, kind, key, recordSha, target) <==>
        || HasProvenance(t, kind, key, recordSha, target)
        || ((exists i | 0 <= i < |m.records| ::
               m.records[i].kind == kind && codec.decode(kind, m.records[i].payload) == Some((key, recordSha)) && m.records[i].key == key)
            && (kind, key) in u.targets && u.targets[(kind, key)] == target)
  {
    var u, planned := Done(codec, t, m, sha, ids), PlanOf(codec, t, m.records);
    NoneCounted(planned, Conflicts);
    ProvenanceRuns(t, |t.runs|, m.records, planned, ids, |m.records|);
    hide Done, Plannable, PlanOf, ValidManifest;
    if HasProvenance(t, kind, key, recordSha, target) { OldProvenanceStays(codec, t, m, sha, ids, kind, key, recordSha, target); }
    if i :| 0 <= i < |m.records| && m.records[i].kind == kind && codec.decode(kind, m.records[i].payload) == Some((key, recordSha)) && m.records[i].key == key {
      AppliedTarget(codec, t, m, sha, ids, i);
      if u.targets[(kind, key)] == target { AppliedIsRecorded(codec, t, m, sha, ids, i); }
    }
    if HasProvenance(u, kind, key, recordSha, target) && !HasProvenance(t, kind, key, recordSha, target) {
      NewProvenance(codec, t, m, sha, ids, kind, key, recordSha, target);
    }
  }

  lemma OldProvenanceStays(codec: Codec, t: Tables, m: Manifest, sha: string, ids: seq<Id>, kind: Kind, key: string, recordSha: nat, target: Id)
    requires Plannable(codec, t, m.records) && |ids| == |m.records| && HasProvenance(t, kind, key, recordSha, target)
    ensures HasProvenance(Done(codec, t, m, sha, ids), kind, key, recordSha, target)
  {
    var u := Done(codec, t, m, sha, ids);
    ProvenanceRuns(t, |t.runs|, m.records, PlanOf(codec, t, m.records), ids, |m.records|);
    var p :| p in t.provenance && p.run < |t.runs| && t.runs[p.run].status.Succeeded?
             && p.kind == kind && p.key == key && p.recordSha == recordSha && p.target == target;
    assert p in u.provenance && u.runs[p.run] == t.runs[p.run];
  }

  lemma AppliedIsRecorded(codec: Codec, t: Tables, m: Manifest, sha: string, ids: seq<Id>, i: nat)
    requires ValidManifest(m) && Plannable(codec, t, m.records) && |ids| == |m.records| && i < |m.records|
    ensures var record, planned := m.records[i], PlanOf(codec, t, m.records)[i];
      HasProvenance(Done(codec, t, m, sha, ids), record.kind, record.key, planned.sha, TargetOf(planned, ids[i]))
  {
    var record, planned, u := m.records[i], PlanOf(codec, t, m.records), Done(codec, t, m, sha, ids);
    ProvenanceRuns(t, |t.runs|, m.records, planned, ids, |m.records|);
    assert ValidRecord(m.sources, record);
    var p := Provenance(|t.runs|, record.paths[0], record.key, planned[i].sha, record.kind, TargetOf(planned[i], ids[i]), planned[i].action.Insert?);
    assert p in ProvenanceOf(|t.runs|, record, planned[i], ids[i]);
    assert p in u.provenance && u.runs[p.run].status.Succeeded?;
  }

  lemma NewProvenance(codec: Codec, t: Tables, m: Manifest, sha: string, ids: seq<Id>, kind: Kind, key: string, recordSha: nat, target: Id)
    requires ValidManifest(m) && Plannable(codec, t, m.records) && |ids| == |m.records| && WellFormed(t)
    requires CountOf(PlanOf(codec, t, m.records), Conflicts) == 0
    requires HasProvenance(Done(codec, t, m, sha, ids), kind, key, recordSha, target) && !HasProvenance(t, kind, key, recordSha, target)
    ensures exists i | 0 <= i < |m.records| ::
      m.records[i].kind == kind && codec.decode(kind, m.records[i].payload) == Some((key, recordSha)) && m.records[i].key == key
    ensures var u := Done(codec, t, m, sha, ids); (kind, key) in u.targets && u.targets[(kind, key)] == target
  {
    hide ValidManifest, CountOf, TargetsAfter, ProvenanceAfter;
    var u, planned := Done(codec, t, m, sha, ids), PlanOf(codec, t, m.records);
    NoneCounted(planned, Conflicts);
    var p :| p in u.provenance && p.run < |u.runs| && u.runs[p.run].status.Succeeded?
             && p.kind == kind && p.key == key && p.recordSha == recordSha && p.target == target;
    if p in t.provenance {
      assert false;
    } else {
      ProvenanceFrom(t, |t.runs|, m.records, planned, ids, |m.records|, p);
      var i :| 0 <= i < |m.records| && p in ProvenanceOf(|t.runs|, m.records[i], planned[i], ids[i]);
      AppliedTarget(codec, t, m, sha, ids, i);
    }
  }

  /** One step adds exactly what it applied to what counts as applied. */
  lemma StepRecords(codec: Codec, t: Tables, step: Step, kind: Kind, key: string, sha: nat, target: Id)
    requires WellFormed(t)
    ensures WellFormed(After(codec, t, step))
    ensures HasProvenance(After(codec, t, step), kind, key, sha, target) <==>
              HasProvenance(t, kind, key, sha, target) || Applies(codec, t, step, kind, key, sha, target)
  {
    hide WellFormed, HasProvenance, ValidManifest, Plannable, Done, CountOf;
    if step.Seeding? && ValidManifest(step.m) && |step.ids| == |step.m.records| {
      ApplyKeepsWellFormed(codec, t, step.m, step.sha, step.ids, step.trouble);
      var after := After(codec, t, step);
      if Commits(codec, t, step) {
        CommitIsDone(codec, t, step);
        DoneRecords(codec, t, step.m, step.sha, step.ids, kind, key, sha, target);
      } else {
        AttemptKeepsRecords(codec, t, step, kind, key, sha, target);
      }
    } else {
      EditKeepsRecords(codec, t, step, kind, key, sha, target);
    }
  }

  lemma CommitIsDone(codec: Codec, t: Tables, step: Step)
    requires Commits(codec, t, step)
    ensures ValidManifest(step.m) && |step.ids| == |step.m.records| && Plannable(codec, t, step.m.records)
    ensures CountOf(PlanOf(codec, t, step.m.records), Conflicts) == 0
    ensures After(codec, t, step) == Done(codec, t, step.m, step.sha, step.ids)
  {
    hide ValidManifest, Plannable, Done, CountOf;
  }

  lemma AttemptKeepsRecords(codec: Codec, t: Tables, step: Step, kind: Kind, key: string, sha: nat, target: Id)
    requires step.Seeding? && !Commits(codec, t, step) && WellFormed(t)
    ensures HasProvenance(After(codec, t, step), kind, key, sha, target) <==> HasProvenance(t, kind, key, sha, target)
  {
    hide ValidManifest, Plannable, CountOf, WellFormed;
    assert WellFormed(t);
    var u := After(codec, t, step);
    if u != t {
      NotCommitted(codec, t, step);
      SameRecords(t, u, kind, key, sha, target);
    }
  }

  lemma NotCommitted(codec: Codec, t: Tables, step: Step)
    requires step.Seeding? && !Commits(codec, t, step)
    ensures var u := After(codec, t, step);
      u == t || (|u.runs| == |t.runs| + 1 && u == t.(runs := t.runs + [u.runs[|t.runs|]]) && !u.runs[|t.runs|].status.Succeeded?)
  {
    hide ValidManifest, Plannable, CountOf, TargetsAfter, ProvenanceAfter, PlanOf;
  }

  lemma SameRecords(t: Tables, u: Tables, kind: Kind, key: string, sha: nat, target: Id)
    requires WellFormed(t) && u.provenance == t.provenance && |t.runs| <= |u.runs|
    requires forall i | 0 <= i < |t.runs| :: u.runs[i] == t.runs[i]
    ensures HasProvenance(u, kind, key, sha, target) <==> HasProvenance(t, kind, key, sha, target)
  {
    if p :| p in t.provenance && p.run < |t.runs| && t.runs[p.run].status.Succeeded?
            && p.kind == kind && p.key == key && p.recordSha == sha && p.target == target {
      assert p in u.provenance && u.runs[p.run].status.Succeeded?;
    }
    if p :| p in u.provenance && p.run < |u.runs| && u.runs[p.run].status.Succeeded?
            && p.kind == kind && p.key == key && p.recordSha == sha && p.target == target {
      assert p in t.provenance && t.runs[p.run].status.Succeeded?;
    }
  }

  lemma EditKeepsRecords(codec: Codec, t: Tables, step: Step, kind: Kind, key: string, sha: nat, target: Id)
    requires WellFormed(t) && !(step.Seeding? && ValidManifest(step.m) && |step.ids| == |step.m.records|)
    ensures WellFormed(After(codec, t, step)) && !Commits(codec, t, step)
    ensures HasProvenance(After(codec, t, step), kind, key, sha, target) <==> HasProvenance(t, kind, key, sha, target)
  {
    SameRecords(t, After(codec, t, step), kind, key, sha, target);
  }

  /** Some step of the history applied a record of this kind, key and content to this target. */
  ghost predicate AppliedIn(codec: Codec, start: Tables, steps: seq<Step>, kind: Kind, key: string, sha: nat, target: Id) {
    exists j | 0 <= j < |steps| :: Applies(codec, TablesAt(codec, start, steps[..j]), steps[j], kind, key, sha, target)
  }

  lemma OneMoreStep(codec: Codec, start: Tables, steps: seq<Step>, kind: Kind, key: string, sha: nat, target: Id)
    requires steps != []
    ensures var n := |steps| - 1;
      AppliedIn(codec, start, steps, kind, key, sha, target) <==>
        || AppliedIn(codec, start, steps[..n], kind, key, sha, target)
        || Applies(codec, TablesAt(codec, start, steps[..n]), steps[n], kind, key, sha, target)
  {
    hide Applies, TablesAt;
    var before := steps[..|steps| - 1];
    assert forall j | 0 <= j < |before| :: before[j] == steps[j] && before[..j] == steps[..j];
  }

  lemma {:induction false} HistoryRecords(codec: Codec, start: Tables, steps: seq<Step>, kind: Kind, key: string, sha: nat, target: Id)
    requires start.runs == [] && start.provenance == {}
    ensures WellFormed(TablesAt(codec, start, steps))
    ensures HasProvenance(TablesAt(codec, start, steps), kind, key, sha, target) <==> AppliedIn(codec, start, steps, kind, key, sha, target)
    decreases |steps|
  {
    hide Applies, After, HasProvenance, WellFormed, AppliedIn;
    if steps == [] {
      NothingRecorded(start, kind, key, sha, target);
      assert !AppliedIn(codec, start, steps, kind, key, sha, target) by { NothingApplied(codec, start, kind, key, sha, target); }
    } else {
      var n := |steps| - 1;
      OneMoreStep(codec, start, steps, kind, key, sha, target);
      HistoryRecords(codec, start, steps[..n], kind, key, sha, target);
      StepRecords(codec, TablesAt(codec, start, steps[..n]), steps[n], kind, key, sha, target);
    }
  }

  lemma NothingApplied(codec: Codec, start: Tables, kind: Kind, key: string, sha: nat, target: Id)
    ensures !AppliedIn(codec, start, [], kind, key, sha, target)
  {
  }

  lemma NothingRecorded(t: Tables, kind: Kind, key: string, sha: nat, target: Id)
    requires t.runs == [] && t.provenance == {}
    ensures WellFormed(t) && !HasProvenance(t, kind, key, sha, target)
  {
  }

  /** After any history: a record is inserted exactly if its target is missing, and skipped
      exactly if some application that went through applied a record of that kind, key and very
      content, and the target is still the one that application left. Any other record whose
      target exists conflicts: one edited since, and one that was never seeded. */
  lemma PlannedExactly(codec: Codec, start: Tables, steps: seq<Step>, record: Record)
    requires start.runs == [] && start.provenance == {}
    requires PlanRecord(codec, TablesAt(codec, start, steps), record).Ok?
    ensures var t := TablesAt(codec, start, steps);
      var action, content := PlanRecord(codec, t, record).value.action, codec.decode(record.kind, record.payload);
      && content.Some?
      && (action.Insert? <==> (record.kind, record.key) !in t.targets)
      && (action.Skip? <==>
            && (record.kind, record.key) in t.targets
            && AppliedIn(codec, start, steps, record.kind, record.key, content.value.1, t.targets[(record.kind, record.key)]))
  {
    hide AppliedIn, TablesAt, HasProvenance, WellFormed;
    var t := TablesAt(codec, start, steps);
    if (record.kind, record.key) in t.targets {
      var sha := codec.decode(record.kind, record.payload).value.1;
      HistoryRecords(codec, start, steps, record.kind, record.key, sha, t.targets[(record.kind, record.key)]);
    }
  }
}
