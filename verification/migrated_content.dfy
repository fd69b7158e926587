/** What the Home v2 migration writes into the draft, locale by locale and location by location. */
module MigratedContent {
  import opened ContentModel
  import opened PageGroup
  import opened Sorting
  import opened HomeMigration

  /** The stored location is the public one, with its texts in canonical locale order. */
  predicate Carries(stored: HomeLocation, location: Location) {
    && stored.key == location.key && stored.href == location.href && stored.order == location.order
    && |stored.translations| == |LOCALES|
    && forall n | 0 <= n < |LOCALES| :: LOCALES[n] in location.rows && stored.translations[n] == (LOCALES[n], location.rows[LOCALES[n]].text)
  }

  /** The stored locations are the public ones, each once, in ascending order. */
  ghost predicate ListsAll(stored: seq<HomeLocation>, locations: seq<Location>) {
    && |stored| == |locations|
    && (forall i, j | 0 <= i < j < |stored| :: stored[i].order < stored[j].order)
    && forall k | 0 <= k < |locations| :: exists i | 0 <= i < |stored| :: Carries(stored[i], locations[k])
  }

  predicate SameLinks(rows: map<Locale, Links>) {
    (forall l: Locale :: l in rows) && forall l: Locale :: rows[l] == rows[ZhHant]
  }

  /** The draft is the public Home, converted: in each locale the conversion of the text that is
      public in that locale, under the links of the site and with all public locations. */
  ghost predicate IsConversion(codec: Codec, draft: PageContent, w: World) {
    && draft.template.HomeV2?
    && (forall l: Locale ::
          && l in draft.translations && l in w.db.pageRows && w.db.pageRows[l].payload.PagePayload?
          && codec.convert(w.db.pageRows[l].payload.text) == Some(draft.translations[l]))
    && SameLinks(w.site.rows)
    && exists stored :: ListsAll(stored, w.locations) && draft.settings == codec.settings(w.site.rows[ZhHant], stored)
  }

  lemma {:induction false} InOrderIsShorter<T>(rows: map<Locale, T>, locales: seq<Locale>)
    ensures |InOrder(rows, locales)| <= |locales|
    decreases |locales|
  {
    if locales != [] { InOrderIsShorter(rows, locales[1..]); }
  }

  lemma {:induction false} InOrderOfAll<T>(rows: map<Locale, T>, locales: seq<Locale>)
    requires |InOrder(rows, locales)| == |locales|
    ensures forall n | 0 <= n < |locales| :: locales[n] in rows && InOrder(rows, locales)[n] == (locales[n], rows[locales[n]])
    decreases |locales|
  {
    if locales != [] {
      InOrderIsShorter(rows, locales[1..]);
      InOrderOfAll(rows, locales[1..]);
      forall n | 0 <= n < |locales| ensures locales[n] in rows && InOrder(rows, locales)[n] == (locales[n], rows[locales[n]]) {
        if n > 0 { assert locales[n] == locales[1..][n - 1]; }
      }
    }
  }

  /** Every locale is listed. */
  function Place(l: Locale): (n: nat)
    ensures n < |LOCALES| && LOCALES[n] == l
  {
    match l
    case ZhHant => 0
    case ZhHans => 1
    case En => 2
    case Ja => 3
    case Ko => 4
  }

  lemma ListedOnce(translations: seq<(Locale, string)>)
    requires FullLocales(translations)
    ensures forall l: Locale :: l in TranslationMap(translations) && TranslationMap(translations)[l] == translations[Place(l)].1
  {
    forall l: Locale ensures l in TranslationMap(translations) && TranslationMap(translations)[l] == translations[Place(l)].1 {
      var i := Place(l);
      assert translations[i].0 == l;
      assert forall j | 0 <= j < i :: translations[j].0 != translations[i].0;
    }
  }

  lemma TextsAreConverted(codec: Codec, w: World)
    requires LoadHome(w).Ok? && TextsConvert(codec, LoadHome(w).value.translations)
    ensures var translations := TranslationMap(Converted(codec, LoadHome(w).value.translations));
      forall l: Locale ::
        && l in translations && l in w.db.pageRows && w.db.pageRows[l].payload.PagePayload?
        && codec.convert(w.db.pageRows[l].payload.text) == Some(translations[l])
  {
    var texts := Texts(w.db.pageRows);
    var source := LoadHome(w).value.translations;
    InOrderOfAll(texts, LOCALES);
    ListedOnce(Converted(codec, source));
    hide TranslationMap, InOrder;
    forall l: Locale
      ensures l in w.db.pageRows && w.db.pageRows[l].payload.PagePayload?
      ensures codec.convert(w.db.pageRows[l].payload.text) == Some(TranslationMap(Converted(codec, source))[l])
    {
      assert source[Place(l)] == (l, texts[l]);
    }
  }

  lemma LocationsAreListed(codec: Codec, w: World)
    requires LoadSnapshot(w).Ok? && LocationsCurrent(codec, Sort(LoadSnapshot(w).value.locations, ByOrder))
    ensures ListsAll(HomeLocations(Sort(LoadSnapshot(w).value.locations, ByOrder)), w.locations)
  {
    hide Sort, Compares, LocationsCurrent, ListsAll, LoadHome, LoadLinks, CanonicalLocation, SourceOf;
    var sources := LoadSnapshot(w).value.locations;
    ByOrderCompares();
    SortPermutes(sources, ByOrder);
    SortSorts(sources, ByOrder);
    SortedAreListed(codec, w.locations, sources, Sort(sources, ByOrder));
  }

  lemma SortedAreListed(codec: Codec, locations: seq<Location>, sources: seq<LocationSource>, sorted: seq<LocationSource>)
    requires |sources| == |locations| && forall k | 0 <= k < |locations| :: sources[k] == SourceOf(locations[k])
    requires multiset(sorted) == multiset(sources) && Sorted(sorted, ByOrder) && LocationsCurrent(codec, sorted)
    ensures ListsAll(HomeLocations(sorted), locations)
  {
    hide SourceOf, Carries, LocationCurrent;
    assert |sorted| == |sources| by { assert |multiset(sorted)| == |sorted| && |multiset(sources)| == |sources|; }
    var stored := HomeLocations(sorted);
    forall i, j | 0 <= i < j < |stored| ensures stored[i].order < stored[j].order { assert !ByOrder(sorted[j], sorted[i]); }
    forall k | 0 <= k < |locations| ensures exists i | 0 <= i < |stored| :: Carries(stored[i], locations[k]) {
      assert sources[k] in multiset(sources);
      assert sources[k] in sorted;
      var i :| 0 <= i < |sorted| && sorted[i] == sources[k];
      StoredCarries(codec, locations[k]);
      assert stored[i] == HomeLocation(sorted[i].key, sorted[i].href, sorted[i].order, sorted[i].translations);
    }
  }

  lemma StoredCarries(codec: Codec, location: Location)
    requires LocationCurrent(codec, SourceOf(location))
    ensures var source := SourceOf(location); Carries(HomeLocation(source.key, source.href, source.order, source.translations), location)
  {
    InOrderOfAll(LocationTexts(location), LOCALES);
  }

  /** A migration that is accepted leaves Home as the conversion of what is public. */
  lemma MigratedDraftIsConversion(codec: Codec, r: Rules, w: World, sourceSha: nat, planSha: nat)
    requires Apply(codec, r, w, sourceSha, planSha).Ok?
    ensures IsConversion(codec, Apply(codec, r, w, sourceSha, planSha).value.world.db.page.content, w)
  {
    hide IsConversion, LocationsCurrent, Sort, HomeLocations, TextsConvert, LoadHome, TranslationMap;
    var s := LoadSnapshot(w).value;
    var report := BuildPlan(codec, s).value;
    DraftIsTarget(codec, r, w, report);
    TextsAreConverted(codec, w);
    LocationsAreListed(codec, w);
    LinksAgree(w);
    var stored := HomeLocations(Sort(s.locations, ByOrder));
    ConversionIs(codec, Apply(codec, r, w, sourceSha, planSha).value.world.db.page.content, w, stored);
  }

  lemma LinksAgree(w: World)
    requires LoadLinks(w.site).Ok?
    ensures SameLinks(w.site.rows) && LoadLinks(w.site).value == w.site.rows[ZhHant]
  {
    forall l: Locale ensures l in w.site.rows { assert l.ZhHant? || l.ZhHans? || l.En? || l.Ja? || l.Ko?; }
  }

  lemma DraftIsTarget(codec: Codec, r: Rules, w: World, report: Report)
    requires ApplyDraft(codec, r, w, report).Ok?
    ensures var draft := ApplyDraft(codec, r, w, report).value.world.db.page.content;
      && draft.template.HomeV2?
      && draft.settings == codec.settings(report.target.links, report.target.locations)
      && draft.translations == TranslationMap(report.target.translations)
  {
    hide TranslationMap;
  }

  lemma ConversionIs(codec: Codec, draft: PageContent, w: World, stored: seq<HomeLocation>)
    requires draft.template.HomeV2?
    requires forall l: Locale ::
      && l in draft.translations && l in w.db.pageRows && w.db.pageRows[l].payload.PagePayload?
      && codec.convert(w.db.pageRows[l].payload.text) == Some(draft.translations[l])
    requires SameLinks(w.site.rows)
    requires ListsAll(stored, w.locations) && draft.settings == codec.settings(w.site.rows[ZhHant], stored)
    ensures IsConversion(codec, draft, w)
  {
  }
}
