/** The Home v2 migration: a plan computed from what is published, reviewed by its hashes, and
    applied once; applying it again with the same hashes is accepted and changes nothing. */
module HomeMigration {
  import opened ContentModel
  import opened PageGroup
  import opened Sorting
  import History = PageGroupHistory

  const LOCALES: seq<Locale> := [ZhHant, ZhHans, En, Ja, Ko]

  datatype Links = Links(churchYouTube: string, churchFacebook: string, musicYouTube: string)

  datatype LocationText = LocationText(name: string, address: string)

  /** A public row of a location. */
  datatype LocationRow = LocationRow(version: Version, key: string, order: int, text: LocationText)

  datatype Location = Location(id: Id, status: Status, version: Version, key: string, href: string, order: int, rows: map<Locale, LocationRow>)

  datatype Site = Site(published: bool, version: Version, rows: map<Locale, Links>)

  /** Everything the migration reads: Home's tables, the site settings with their public rows,
      and the locations that have public rows, in query order. */
  datatype World = World(homeId: Id, db: Db, site: Site, locations: seq<Location>)

  datatype HomeSource = HomeSource(
    id: Id, template: Template, status: Status, currentVersion: Version, indexable: bool,
    version: Version, translations: seq<(Locale, string)>)

  datatype LocationSource = LocationSource(
    id: Id, key: string, href: string, version: Version, currentVersion: Version, status: Status, order: int,
    translations: seq<(Locale, LocationText)>)

  datatype Snapshot = Snapshot(home: HomeSource, siteVersion: Version, links: Links, locations: seq<LocationSource>)

  datatype LocationVersion = LocationVersion(id: Id, key: string, version: Version, order: int)

  datatype Evidence = Evidence(homeId: Id, homeVersion: Version, siteVersion: Version, locations: seq<LocationVersion>)

  datatype HomeLocation = HomeLocation(key: string, href: string, order: int, translations: seq<(Locale, LocationText)>)

  datatype Target = Target(links: Links, locations: seq<HomeLocation>, translations: seq<(Locale, string)>)

  /** What is signed off before applying: the evidence, the converted texts by hash, links and counts. */
  datatype Plan = Plan(sources: Evidence, sourceSha: nat, localeSha: seq<nat>, links: Links, locationCount: nat)

  datatype Report = Report(plan: Plan, planSha: nat, target: Target)

  /** The parts left open: `convert` checks a first-template text, converts it and checks the
      result; `settings` is the stored form of links and locations, in canonical JSON. */
  datatype Codec = Codec(
    convert: string -> Option<string>,
    safeLinks: Links -> bool,
    locationOk: LocationSource -> bool,
    settings: (Links, seq<HomeLocation>) -> string,
    sha: string -> nat,
    sourceSha: Evidence -> nat,
    planSha: Plan -> nat)

  // ---------------------------------------------------------------- loadSnapshot

  predicate CanonicalHomeRow(row: Row, version: Version) {
    row.payload.PagePayload? && row.payload.template.HomeV1? && row.version == version
  }

  /** The rows present, in canonical locale order. */
  function InOrder<T>(rows: map<Locale, T>, locales: seq<Locale>): seq<(Locale, T)> {
    if locales == [] then []
    else (if locales[0] in rows then [(locales[0], rows[locales[0]])] else []) + InOrder(rows, locales[1..])
  }

  function Texts(rows: Rows): map<Locale, string> {
    map l | l in rows :: if rows[l].payload.PagePayload? then rows[l].payload.text else ""
  }

  function LoadHome(w: World): Result<HomeSource> {
    var rows := w.db.pageRows;
    var version := if rows == map[] then 0 else VersionOf(rows);
    if exists l | l in rows :: !CanonicalHomeRow(rows[l], version) then Err(Invalid)
    else
      var page := w.db.page;
      Ok(HomeSource(w.homeId, page.content.template, page.status, page.version, page.content.indexable,
                    version, InOrder(Texts(rows), LOCALES)))
  }

  function LoadLinks(site: Site): Result<Links> {
    if !site.published || site.rows.Keys != FIVE_LOCALES || exists l | l in site.rows :: site.rows[l] != site.rows[ZhHant] then Err(Invalid)
    else Ok(site.rows[ZhHant])
  }

  function FirstVersion(rows: map<Locale, LocationRow>): Version {
    if ZhHant in rows then rows[ZhHant].version else if ZhHans in rows then rows[ZhHans].version
    else if En in rows then rows[En].version else if Ja in rows then rows[Ja].version
    else if Ko in rows then rows[Ko].version else 0
  }

  /** All rows of one version, under the key and order of their entry. */
  predicate CanonicalLocation(location: Location) {
    location.rows != map[] &&
    forall l | l in location.rows ::
      var row := location.rows[l];
      row.version == FirstVersion(location.rows) && row.key == location.key && row.order == location.order
  }

  function LocationTexts(location: Location): map<Locale, LocationText> {
    map l | l in location.rows :: location.rows[l].text
  }

  function SourceOf(location: Location): LocationSource {
    LocationSource(location.id, location.key, location.href, FirstVersion(location.rows), location.version, location.status,
                   location.order, InOrder(LocationTexts(location), LOCALES))
  }

  function LoadSnapshot(w: World): Result<Snapshot> {
    var home :- LoadHome(w);
    var links :- LoadLinks(w.site);
    if exists i | 0 <= i < |w.locations| :: !CanonicalLocation(w.locations[i]) then Err(Invalid)
    else Ok(Snapshot(home, w.site.version, links, seq(|w.locations|, i requires 0 <= i < |w.locations| => SourceOf(w.locations[i]))))
  }

  // ---------------------------------------------------------------- BuildPlan

  /** Home is a published first template, or the draft one version on that the migration left. */
  predicate Migratable(home: HomeSource) {
    if home.template.HomeV1? then home.status.Published? && home.currentVersion == home.version
    else home.template.HomeV2? && home.status.Draft? && home.currentVersion == home.version + 1
  }

  predicate ByOrder(a: LocationSource, b: LocationSource) {
    a.order < b.order
  }

  predicate FullLocales<T>(translations: seq<(Locale, T)>) {
    |translations| == |LOCALES| && forall i | 0 <= i < |LOCALES| :: translations[i].0 == LOCALES[i]
  }

  predicate LocationCurrent(codec: Codec, source: LocationSource) {
    && source.id != "" && 1 <= source.version && source.currentVersion == source.version
    && source.status.Published? && FullLocales(source.translations) && codec.locationOk(source)
  }

  predicate LocationsCurrent(codec: Codec, sorted: seq<LocationSource>) {
    && (forall i | 0 <= i < |sorted| :: LocationCurrent(codec, sorted[i]))
    && forall i, j | 0 <= i < j < |sorted| :: sorted[i].key != sorted[j].key && sorted[i].order != sorted[j].order
  }

  predicate TextsConvert(codec: Codec, translations: seq<(Locale, string)>) {
    FullLocales(translations) && forall i | 0 <= i < |translations| :: codec.convert(translations[i].1).Some?
  }

  function Converted(codec: Codec, translations: seq<(Locale, string)>): (converted: seq<(Locale, string)>)
    requires TextsConvert(codec, translations)
  {
    seq(|translations|, i requires 0 <= i < |translations| => (translations[i].0, codec.convert(translations[i].1).value))
  }

  function Hashes(codec: Codec, translations: seq<(Locale, string)>): seq<nat> {
    seq<nat>(|translations|, i requires 0 <= i < |translations| => codec.sha(translations[i].1))
  }

  function HomeLocations(sorted: seq<LocationSource>): seq<HomeLocation> {
    seq(|sorted|, i requires 0 <= i < |sorted| => HomeLocation(sorted[i].key, sorted[i].href, sorted[i].order, sorted[i].translations))
  }

  function Versions(sorted: seq<LocationSource>): seq<LocationVersion> {
    seq(|sorted|, i requires 0 <= i < |sorted| => LocationVersion(sorted[i].id, sorted[i].key, sorted[i].version, sorted[i].order))
  }

  function ReportFor(codec: Codec, s: Snapshot, sorted: seq<LocationSource>, translations: seq<(Locale, string)>): Report {
    var evidence := Evidence(s.home.id, s.home.version, s.siteVersion, Versions(sorted));
    var plan := Plan(evidence, codec.sourceSha(evidence), Hashes(codec, translations), s.links, |sorted|);
    Report(plan, codec.planSha(plan), Target(s.links, HomeLocations(sorted), translations))
  }

  function BuildPlan(codec: Codec, s: Snapshot): Result<Report> {
    var sorted := Sort(s.locations, ByOrder);
    if s.home.id == "" || s.home.version < 1 || s.siteVersion < 1 || !Migratable(s.home) || !codec.safeLinks(s.links) ||
       !TextsConvert(codec, s.home.translations) || !LocationsCurrent(codec, sorted) then Err(Invalid)
    else Ok(ReportFor(codec, s, sorted, Converted(codec, s.home.translations)))
  }

  // ---------------------------------------------------------------- Apply

  function TranslationMap(translations: seq<(Locale, string)>): map<Locale, string> {
    map i | 0 <= i < |translations| && (forall j | 0 <= j < i :: translations[j].0 != translations[i].0) :: translations[i].0 := translations[i].1
  }

  datatype Applied = Applied(world: World, report: Report, changed: bool)

  /** applyDraft: compare an existing draft with the target, or write the target. */
  function ApplyDraft(codec: Codec, r: Rules, w: World, report: Report): Result<Applied> {
    var settings := codec.settings(report.target.links, report.target.locations);
    var translations := TranslationMap(report.target.translations);
    var content := w.db.page.content;
    if content.template.HomeV2? then
      if content.settings == settings && content.translations == translations then Ok(Applied(w, report, false)) else Err(Conflict)
    else
      var db :- MigrateHome(r, w.db, settings, translations);
      Ok(Applied(w.(db := db), report, true))
  }

  function Apply(codec: Codec, r: Rules, w: World, sourceSha: nat, planSha: nat): Result<Applied> {
    var s :- LoadSnapshot(w);
    var report :- BuildPlan(codec, s);
    if report.plan.sourceSha != sourceSha || report.planSha != planSha then Err(Stale)
    else ApplyDraft(codec, r, w, report)
  }

  // ---------------------------------------------------------------- idempotence

  /** Nothing a reader sees, and no source of the plan, changes when the plan is applied. */
  lemma ApplyKeepsPublic(codec: Codec, r: Rules, w: World, sourceSha: nat, planSha: nat)
    requires Apply(codec, r, w, sourceSha, planSha).Ok?
    ensures var after := Apply(codec, r, w, sourceSha, planSha).value.world;
      && after.db.pageRows == w.db.pageRows && after.db.childRows == w.db.childRows
      && after.db.children == w.db.children && after.db.manifests == w.db.manifests && after.db.outbox == w.db.outbox
      && after.site == w.site && after.locations == w.locations
      && after.db.page.live == w.db.page.live
  {
    hide Apply;
    AppliedWorld(codec, r, w, sourceSha, planSha);
  }

  /** What applying a plan can do to the world: nothing, or turn Home into the draft. */
  lemma AppliedWorld(codec: Codec, r: Rules, w: World, sourceSha: nat, planSha: nat)
    requires Apply(codec, r, w, sourceSha, planSha).Ok?
    ensures LoadSnapshot(w).Ok? && BuildPlan(codec, LoadSnapshot(w).value).Ok?
    ensures var report := BuildPlan(codec, LoadSnapshot(w).value).value;
      report.plan.sourceSha == sourceSha && report.planSha == planSha
    ensures var after := Apply(codec, r, w, sourceSha, planSha).value.world;
      && after == w.(db := w.db.(page := after.db.page)) && after.db.page.live == w.db.page.live
      && after.db.page.content.indexable == w.db.page.content.indexable
      && (after == w || (after.db.page.content.template.HomeV2? && after.db.page.status.Draft? &&
                         w.db.page.content.template.HomeV1? && after.db.page.version == w.db.page.version + 1))
  {
    hide LoadSnapshot, BuildPlan, TranslationMap;
  }

  /** The plan depends on Home's own entry only through whether it can be migrated. */
  lemma PlanReadsOnlySources(codec: Codec, w: World, db: Db)
    requires db.pageRows == w.db.pageRows && db.page.content.indexable == w.db.page.content.indexable
    requires LoadSnapshot(w).Ok? && BuildPlan(codec, LoadSnapshot(w).value).Ok?
    ensures LoadSnapshot(w.(db := db)).Ok?
    ensures Migratable(LoadSnapshot(w.(db := db)).value.home) ==>
      BuildPlan(codec, LoadSnapshot(w.(db := db)).value) == BuildPlan(codec, LoadSnapshot(w).value)
  {
    hide CanonicalLocation, LoadLinks;
  }

  lemma PlannedIsMigratable(codec: Codec, s: Snapshot)
    requires BuildPlan(codec, s).Ok?
    ensures Migratable(s.home)
  {
    hide Migratable, TextsConvert, LocationsCurrent, ReportFor, Converted, Sort;
  }

  lemma DraftIsMigratable(w: World, db: Db)
    requires LoadSnapshot(w).Ok? && LoadSnapshot(w.(db := db)).Ok? && Migratable(LoadSnapshot(w).value.home)
    requires db == w.db.(page := db.page) && w.db.page.content.template.HomeV1?
    requires db.page.content.template.HomeV2? && db.page.status.Draft? && db.page.version == w.db.page.version + 1
    ensures Migratable(LoadSnapshot(w.(db := db)).value.home)
  {
    hide CanonicalLocation, LoadLinks, SourceOf;
  }

  /** Applying a plan leaves Home as the draft the plan still recognises, so planning again
      gives the same report, with the same source and plan hashes. */
  lemma PlanSurvivesApply(codec: Codec, r: Rules, w: World, sourceSha: nat, planSha: nat)
    requires Apply(codec, r, w, sourceSha, planSha).Ok?
    ensures var after := Apply(codec, r, w, sourceSha, planSha).value.world;
      && LoadSnapshot(after).Ok?
      && BuildPlan(codec, LoadSnapshot(after).value) == BuildPlan(codec, LoadSnapshot(w).value)
      && BuildPlan(codec, LoadSnapshot(after).value).value.plan.sourceSha == sourceSha
      && BuildPlan(codec, LoadSnapshot(after).value).value.planSha == planSha
  {
    hide Apply, LoadSnapshot, BuildPlan, Migratable;
    var after := Apply(codec, r, w, sourceSha, planSha).value.world;
    AppliedWorld(codec, r, w, sourceSha, planSha);
    PlanReadsOnlySources(codec, w, after.db);
    PlannedIsMigratable(codec, LoadSnapshot(w).value);
    if after != w { DraftIsMigratable(w, after.db); }
  }

  /** A second application with the same hashes is accepted, reports nothing applied, and
      changes nothing. */
  lemma ApplyIsIdempotent(codec: Codec, r: Rules, w: World, sourceSha: nat, planSha: nat)
    requires Apply(codec, r, w, sourceSha, planSha).Ok?
    ensures var first := Apply(codec, r, w, sourceSha, planSha).value;
      Apply(codec, r, first.world, sourceSha, planSha) == Ok(Applied(first.world, first.report, false))
  {
    hide LoadSnapshot, BuildPlan, TranslationMap;
    PlanSurvivesApply(codec, r, w, sourceSha, planSha);
  }

  /** What a sequence of transactions leaves of the tables; those refused change nothing. */
  function AfterOps(r: Rules, db: Db, ops: seq<History.Op>): Db
    decreases ops
  {
    if ops == [] then db
    else
      var done := History.Apply(r, db, ops[0]);
      AfterOps(r, if done.Ok? then done.value else db, ops[1..])
  }

  predicate AllRefused(r: Rules, db: Db, ops: seq<History.Op>) {
    forall i | 0 <= i < |ops| :: History.Apply(r, db, ops[i]).Err?
  }

  /** Every transaction on Home or one of its videos, from edits to publications, moves Home's
      version on. */
  lemma OpMovesOn(r: Rules, db: Db, op: History.Op)
    requires History.Apply(r, db, op).Ok?
    ensures db.page.version < History.Apply(r, db, op).value.page.version
  {
    hide CreateChild, UpdateChild, DeleteChild, UpdatePage, MigrateHome, PublishGroup, StartHomePublish, UnpublishGroup, RestoreGroup;
    match op
    case OpCreateChild(id, content) => CreateMovesOn(db, id, content);
    case OpUpdateChild(id, expected, content) => UpdateMovesOn(db, id, expected, content);
    case OpDeleteChild(id, expected) => DeleteMovesOn(db, id, expected);
    case OpUpdatePage(expected, content) => PageEditMovesOn(db, expected, content);
    case OpMigrateHome(settings, translations) => MigrationMovesOn(r, db, settings, translations);
    case OpPublishGroup(expected) => History.PublishedTables(r, db, expected);
    case OpStartHomePublish(expected) => StartMovesOn(r, db, expected);
    case OpUnpublishGroup(expected) => UnpublishMovesOn(r, db, expected);
    case OpRestoreGroup(revision, expected) => RestoreMovesOn(r, db, revision, expected);
  }

  lemma CreateMovesOn(db: Db, id: Id, content: Content)
    ensures CreateChild(db, id, content).Ok? ==> CreateChild(db, id, content).value.page.version == db.page.version + 1
  {
    hide VideoTaken;
  }

  lemma UpdateMovesOn(db: Db, id: Id, expected: Version, content: Content)
    ensures var after := UpdateChild(db, id, expected, content); after.Ok? ==> after.value.page.version == db.page.version + 1
  {
    hide VideoTaken;
  }

  lemma DeleteMovesOn(db: Db, id: Id, expected: Version)
    ensures var after := DeleteChild(db, id, expected); after.Ok? ==> after.value.page.version == db.page.version + 1
  {
    hide NamedByManifest, HasRows;
  }

  lemma PageEditMovesOn(db: Db, expected: Version, content: PageContent)
    ensures var after := UpdatePage(db, expected, content); after.Ok? ==> after.value.page.version == db.page.version + 1
  {
  }

  lemma MigrationMovesOn(r: Rules, db: Db, settings: string, translations: map<Locale, string>)
    ensures var after := MigrateHome(r, db, settings, translations); after.Ok? ==> after.value.page.version == db.page.version + 1
  {
  }

  lemma StartMovesOn(r: Rules, db: Db, expected: Version)
    ensures var after := StartHomePublish(r, db, expected); after.Ok? ==> after.value.page.version == db.page.version + 1
  {
    hide CaptureBaseline, CollectItems, AllReady, PageReady;
    if CaptureBaseline(r, db).Ok? { History.BaselineGrows(r, db); }
  }

  lemma UnpublishMovesOn(r: Rules, db: Db, expected: Version)
    ensures var after := UnpublishGroup(r, db, expected); after.Ok? ==> after.value.page.version == db.page.version + 1
  {
    hide CaptureBaseline, Withdraw;
    if UnpublishGroup(r, db, expected).Ok? {
      History.BaselineGrows(r, db);
      WithdrawalMovesOn(r, CaptureBaseline(r, db).value);
    }
  }

  lemma WithdrawalMovesOn(r: Rules, db: Db)
    ensures Withdraw(r, db).Ok? ==> Withdraw(r, db).value.page.version == db.page.version + 1
  {
    hide WithdrawItems, WithdrawMembers, InsertManifest;
  }

  lemma RestoreMovesOn(r: Rules, db: Db, revision: Version, expected: Version)
    ensures var after := RestoreGroup(r, db, revision, expected); after.Ok? ==> after.value.page.version == db.page.version + 1
  {
    hide RestoreError, RestoreChildren, ValidManifest;
  }

  lemma {:induction false} OpsMoveOn(r: Rules, db: Db, ops: seq<History.Op>)
    ensures db.page.version <= AfterOps(r, db, ops).page.version
    ensures AllRefused(r, db, ops) ==> AfterOps(r, db, ops) == db
    ensures !AllRefused(r, db, ops) ==> db.page.version < AfterOps(r, db, ops).page.version
    decreases ops
  {
    hide *;
    if ops != [] {
      OpsUnfold(r, db, ops);
      if History.Apply(r, db, ops[0]).Ok? {
        OpMovesOn(r, db, ops[0]);
        OpsMoveOn(r, History.Apply(r, db, ops[0]).value, ops[1..]);
      } else {
        OpsMoveOn(r, db, ops[1..]);
      }
    } else {
      OpsUnfold(r, db, ops);
    }
  }

  lemma OpsUnfold(r: Rules, db: Db, ops: seq<History.Op>)
    ensures ops == [] ==> AfterOps(r, db, ops) == db && AllRefused(r, db, ops)
    ensures ops != [] && History.Apply(r, db, ops[0]).Ok? ==>
              AfterOps(r, db, ops) == AfterOps(r, History.Apply(r, db, ops[0]).value, ops[1..]) && !AllRefused(r, db, ops)
    ensures ops != [] && History.Apply(r, db, ops[0]).Err? ==>
              AfterOps(r, db, ops) == AfterOps(r, db, ops[1..]) && (AllRefused(r, db, ops) <==> AllRefused(r, db, ops[1..]))
  {
    if ops != [] && History.Apply(r, db, ops[0]).Err? {
      if AllRefused(r, db, ops[1..]) {
        forall i | 0 <= i < |ops| ensures History.Apply(r, db, ops[i]).Err? { if i > 0 { assert ops[1..][i - 1] == ops[i]; } }
      }
      if AllRefused(r, db, ops) {
        forall i | 0 <= i < |ops| - 1 ensures History.Apply(r, db, ops[1..][i]).Err? { assert ops[1..][i] == ops[i + 1]; }
      }
    }
  }

  /** The source hash tells apart what it hashes. */
  ghost predicate Digests(codec: Codec) {
    forall a, b :: codec.sourceSha(a) == codec.sourceSha(b) ==> a == b
  }

  /** Accepted hashes pin Home to a version: the published one, or the one just after it. */
  lemma AcceptedVersion(codec: Codec, r: Rules, w: World, sourceSha: nat, planSha: nat)
    requires Apply(codec, r, w, sourceSha, planSha).Ok?
    ensures LoadSnapshot(w).Ok? && BuildPlan(codec, LoadSnapshot(w).value).Ok?
    ensures var report := BuildPlan(codec, LoadSnapshot(w).value).value;
      && codec.sourceSha(report.plan.sources) == sourceSha
      && report.plan.sources.homeVersion <= w.db.page.version <= report.plan.sources.homeVersion + 1
      && (Apply(codec, r, w, sourceSha, planSha).value.changed ==>
            && w.db.page.version == report.plan.sources.homeVersion
            && Apply(codec, r, w, sourceSha, planSha).value.world.db.page.version == w.db.page.version + 1)
  {
    hide Converted, TextsConvert, LocationsCurrent, Versions, TranslationMap;
  }

  /** Once Home was migrated and any transaction on Home or a video went through, the reviewed
      hashes are refused for good, whatever else happens to site settings and locations. */
  lemma EditsEndTheMigration(codec: Codec, r: Rules, w: World, sourceSha: nat, planSha: nat, ops: seq<History.Op>,
                             site: Site, locations: seq<Location>)
    requires Digests(codec)
    requires Apply(codec, r, w, sourceSha, planSha).Ok? && Apply(codec, r, w, sourceSha, planSha).value.changed
    requires !AllRefused(r, Apply(codec, r, w, sourceSha, planSha).value.world.db, ops)
    ensures var migrated := Apply(codec, r, w, sourceSha, planSha).value.world;
      Apply(codec, r, World(w.homeId, AfterOps(r, migrated.db, ops), site, locations), sourceSha, planSha).Err?
  {
    hide Apply, AfterOps, AllRefused, LoadSnapshot, BuildPlan;
    var migrated := Apply(codec, r, w, sourceSha, planSha).value.world;
    var later := World(w.homeId, AfterOps(r, migrated.db, ops), site, locations);
    AcceptedVersion(codec, r, w, sourceSha, planSha);
    OpsMoveOn(r, migrated.db, ops);
    if Apply(codec, r, later, sourceSha, planSha).Ok? { AcceptedVersion(codec, r, later, sourceSha, planSha); }
  }

  /** A migration can be applied again, and then changes nothing, exactly as long as no
      transaction on Home or a video went through since; otherwise it is refused. */
  lemma ReapplySucceedsExactly(codec: Codec, r: Rules, w: World, sourceSha: nat, planSha: nat, ops: seq<History.Op>)
    requires Digests(codec)
    requires Apply(codec, r, w, sourceSha, planSha).Ok? && Apply(codec, r, w, sourceSha, planSha).value.changed
    ensures var first := Apply(codec, r, w, sourceSha, planSha).value;
      var again := Apply(codec, r, first.world.(db := AfterOps(r, first.world.db, ops)), sourceSha, planSha);
      if AllRefused(r, first.world.db, ops) then again == Ok(Applied(first.world, first.report, false)) else again.Err?
  {
    hide Apply, AfterOps, AllRefused, LoadSnapshot, BuildPlan;
    var first := Apply(codec, r, w, sourceSha, planSha).value;
    OpsMoveOn(r, first.world.db, ops);
    ApplyKeepsPublic(codec, r, w, sourceSha, planSha);
    if AllRefused(r, first.world.db, ops) {
      ApplyIsIdempotent(codec, r, w, sourceSha, planSha);
    } else {
      EditsEndTheMigration(codec, r, w, sourceSha, planSha, ops, first.world.site, first.world.locations);
      SameHome(codec, r, w, sourceSha, planSha);
    }
  }

  lemma SameHome(codec: Codec, r: Rules, w: World, sourceSha: nat, planSha: nat)
    requires Apply(codec, r, w, sourceSha, planSha).Ok?
    ensures Apply(codec, r, w, sourceSha, planSha).value.world.homeId == w.homeId
  {
    hide Apply;
    AppliedWorld(codec, r, w, sourceSha, planSha);
  }

  // ---------------------------------------------------------------- imperative form

  lemma ByOrderCompares()
    ensures Compares(ByOrder)
  {
  }

  class Service {
    const codec: Codec
    const rules: Rules
    var world: World

    constructor (codec: Codec, rules: Rules, world: World)
      ensures this.codec == codec && this.rules == rules && this.world == world
    {
      this.codec := codec;
      this.rules := rules;
      this.world := world;
    }

    /** The loop over locales: convert and hash each text. */
    method ConvertTexts(source: seq<(Locale, string)>) returns (result: Result<seq<(Locale, string)>>, hashes: seq<nat>)
      ensures result.Ok? <==> TextsConvert(codec, source)
      ensures result.Ok? ==> result.value == Converted(codec, source) && hashes == Hashes(codec, result.value)
    {
      var translations: seq<(Locale, string)> := [];
      hashes := [];
      if |source| != |LOCALES| { return Err(Invalid), []; }
      for i := 0 to |LOCALES|
        invariant |translations| == |hashes| == i
        invariant forall k | 0 <= k < i ::
          && source[k].0 == LOCALES[k] && codec.convert(source[k].1).Some?
          && translations[k] == (source[k].0, codec.convert(source[k].1).value)
          && hashes[k] == codec.sha(translations[k].1)
      {
        if source[i].0 != LOCALES[i] { return Err(Invalid), []; }
        var body := codec.convert(source[i].1);
        if body.None? { return Err(Invalid), []; }
        translations := translations + [(LOCALES[i], body.value)];
        hashes := hashes + [codec.sha(body.value)];
      }
      return Ok(translations), hashes;
    }

    /** The loop over sorted locations: each current, no key and no order twice. */
    method CollectLocations(sorted: seq<LocationSource>)
      returns (result: Result<seq<HomeLocation>>, versions: seq<LocationVersion>)
      ensures result.Ok? <==> LocationsCurrent(codec, sorted)
      ensures result.Ok? ==> result.value == HomeLocations(sorted) && versions == Versions(sorted)
    {
      var locations: seq<HomeLocation> := [];
      versions := [];
      var keys: set<string>, orders: set<int> := {}, {};
      for i := 0 to |sorted|
        invariant |locations| == |versions| == i
        invariant keys == set k | 0 <= k < i :: sorted[k].key
        invariant orders == set k | 0 <= k < i :: sorted[k].order
        invariant LocationsCurrent(codec, sorted[..i])
        invariant locations == HomeLocations(sorted[..i]) && versions == Versions(sorted[..i])
      {
        var source := sorted[i];
        if !LocationCurrent(codec, source) || source.key in keys || source.order in orders { return Err(Invalid), []; }
        keys, orders := keys + {source.key}, orders + {source.order};
        locations := locations + [HomeLocation(source.key, source.href, source.order, source.translations)];
        versions := versions + [LocationVersion(source.id, source.key, source.version, source.order)];
      }
      assert sorted[..|sorted|] == sorted;
      return Ok(locations), versions;
    }

    method PlanFor(s: Snapshot) returns (result: Result<Report>)
      ensures result == BuildPlan(codec, s)
    {
      if s.home.id == "" || s.home.version < 1 || s.siteVersion < 1 { return Err(Invalid); }
      if !Migratable(s.home) || !codec.safeLinks(s.links) { return Err(Invalid); }
      var translations, hashes := ConvertTexts(s.home.translations);
      if translations.Err? { return Err(Invalid); }
      ByOrderCompares();
      var sorted := SortClone(s.locations, ByOrder);
      var locations, versions := CollectLocations(sorted);
      if locations.Err? { return Err(Invalid); }
      var evidence := Evidence(s.home.id, s.home.version, s.siteVersion, versions);
      var plan := Plan(evidence, codec.sourceSha(evidence), hashes, s.links, |locations.value|);
      return Ok(Report(plan, codec.planSha(plan), Target(s.links, locations.value, translations.value)));
    }

    /** Apply: everything is checked against the reviewed hashes before anything is written. */
    method ApplyPlan(sourceSha: nat, planSha: nat) returns (result: Result<(Report, bool)>)
      modifies this
      ensures match Apply(codec, rules, old(world), sourceSha, planSha)
        case Ok(done) => result == Ok((done.report, done.changed)) && world == done.world
        case Err(error) => result == Err(error) && world == old(world)
    {
      hide LoadSnapshot, BuildPlan, TranslationMap;
      var s :- LoadSnapshot(world);
      var report :- PlanFor(s);
      if report.plan.sourceSha != sourceSha || report.planSha != planSha { return Err(Stale); }
      var settings := codec.settings(report.target.links, report.target.locations);
      var translations := TranslationMap(report.target.translations);
      var page := world.db.page;
      if page.content.template.HomeV2? {
        if page.content.settings != settings || page.content.translations != translations { return Err(Conflict); }
        return Ok((report, false));
      }
      if !rules.kind.Home? || !page.content.template.HomeV1? || !page.status.Published? { return Err(Invalid); }
      page := page.(content := page.content.(template := HomeV2, banner := "", settings := settings));
      page := page.(content := page.content.(translations := translations));
      page := page.(status := Draft, version := page.version + 1);
      if page.version in page.revisions { return Err(Duplicate); }
      page := page.(revisions := page.revisions[page.version := page.content]);
      world := world.(db := world.db.(page := page));
      return Ok((report, true));
    }
  }
}
