/** The routes news items are shown under: slugs are unique among items, but what is shown may
    carry a slug the item no longer has. */
module NewsRoutes {
  import opened ContentModel
  import opened News
  import opened NewsInvariants
  import opened NewsGuarantees

  /** Two items shown under one route. */
  predicate Clash(room: Newsroom, a: Id, b: Id, l: Locale) {
    && a != b && a in room && b in room && room[a].item.entry.Some? && room[b].item.entry.Some?
    && l in room[a].item.entry.value.rows && l in room[b].item.entry.value.rows
    && room[a].item.entry.value.rows[l].slug == room[b].item.entry.value.rows[l].slug
  }

  /** The item is shown under a slug in a locale. */
  predicate ShownUnder(t: Track, l: Locale, slug: string) {
    t.item.entry.Some? && l in t.item.entry.value.rows && t.item.entry.value.rows[l].slug == slug
  }

  /** An item comes to be shown under a slug only when a publication of it completes, in the
      locales it translates and under the slug it has then. */
  lemma ShownByCompletion(r: Rules, max: nat, taken: set<string>, t: Track, step: Step, l: Locale, slug: string)
    requires Inv(r, t)
    ensures var after := Next(r, max, taken, t, step);
      && (CompletesPublication(t, step) ==>
            && t.item.entry.Some?
            && (ShownUnder(after, l, slug) <==>
                l in t.item.entry.value.content.translations && slug == t.item.entry.value.content.slug))
      && (!CompletesPublication(t, step) && ShownUnder(after, l, slug) ==> ShownUnder(t, l, slug))
  {
    hide EntryInv, EventsInv, LedgerInv, Apply, DoComplete, DoCompensate, DoSettle;
    match step
    case Do(expected, op) => if Apply(r, t.item, expected, taken, op).Ok? { ApplyShowsNothing(r, t.item, expected, taken, op); }
    case Complete(key, fault) => CompletionShows(r, max, t, key, fault, l, slug);
    case Compensate(key, fault) => CompensationShowsNothing(t, key, fault);
    case Settle(key, fault) => SettlingShowsNothing(t, key, fault);
    case _ =>
  }

  lemma ApplyShowsNothing(r: Rules, item: Item, expected: Version, taken: set<string>, op: Op)
    requires Apply(r, item, expected, taken, op).Ok?
    ensures var after := Apply(r, item, expected, taken, op).value.entry;
      item.entry.Some? && (after.Some? ==> after.value.rows == item.entry.value.rows || after.value.rows == map[])
  {
  }

  lemma CompensationShowsNothing(t: Track, key: Key, fault: Fault)
    ensures var after := DoCompensate(t, key, fault).item.entry;
      after.Some? ==> t.item.entry.Some? && after.value.rows == t.item.entry.value.rows
  {
    hide Compensated;
  }

  lemma SettlingShowsNothing(t: Track, key: Key, fault: Fault)
    ensures var after := DoSettle(t, key, fault).item.entry;
      after.Some? ==> t.item.entry.Some? && after.value.rows == t.item.entry.value.rows
  {
  }

  lemma CompletionShows(r: Rules, max: nat, t: Track, key: Key, fault: Fault, l: Locale, slug: string)
    requires Inv(r, t)
    ensures var after := DoComplete(r, max, t, key, fault);
      && (CompletesPublication(t, Complete(key, fault)) ==>
            && t.item.entry.Some?
            && (ShownUnder(after, l, slug) <==>
                l in t.item.entry.value.content.translations && slug == t.item.entry.value.content.slug))
      && (!CompletesPublication(t, Complete(key, fault)) && ShownUnder(after, l, slug) ==> ShownUnder(t, l, slug))
  {
    hide Inv, Completed, RowsOf;
    CompletionRows(r, max, t, key, fault);
    if CompletesPublication(t, Complete(key, fault)) { PublishedRows(r, t, key.version); }
  }

  /** What a completion does to the public rows. */
  lemma CompletionRows(r: Rules, max: nat, t: Track, key: Key, fault: Fault)
    requires Inv(r, t)
    ensures var after := DoComplete(r, max, t, key, fault).item.entry;
      if CompletesPublication(t, Complete(key, fault))
      then Completed(r, t.item, key).Ok? && after == Completed(r, t.item, key).value.entry
      else after.Some? ==> t.item.entry.Some? && (after.value.rows == t.item.entry.value.rows || after.value.rows == map[])
  {
    hide EntryInv, EventsInv, LedgerInv;
    assert key in t.attempts ==> AttemptInv(t, key);
    if CompletesPublication(t, Complete(key, fault)) { PublicationCompletes(r, t, key.version); }
  }

  lemma PublishedRows(r: Rules, t: Track, v: Version)
    requires Inv(r, t) && CompletesPublication(t, Complete(PublishKey(v), Fine)) && Completed(r, t.item, PublishKey(v)).Ok?
    ensures t.item.entry.Some?
    ensures var after := Completed(r, t.item, PublishKey(v)).value.entry;
      && after.Some?
      && after.value.rows.Keys == t.item.entry.value.content.translations.Keys
      && forall l | l in after.value.rows :: after.value.rows[l].slug == t.item.entry.value.content.slug
  {
    hide LedgerInv, Displaced, EntryInv;
    assert AttemptInv(t, PublishKey(v));
  }

  /** The turn completes a publication of `x` in locale `l` while `y` is shown under its slug. */
  predicate TakesRoute(room: Newsroom, turn: Turn, x: Id, y: Id, l: Locale) {
    && CompletesAt(room, turn, x) && room[x].item.entry.Some?
    && l in room[x].item.entry.value.content.translations
    && y in room && ShownUnder(room[y], l, room[x].item.entry.value.content.slug)
  }

  /** Two items come to share a route exactly when a publication of one of them completes, in a
      locale it translates, while the other is shown under the slug it has. */
  lemma ClashArisesExactly(r: Rules, max: nat, room: Newsroom, turn: Turn, a: Id, b: Id, l: Locale)
    requires Reachable(r, max, room) && a != b && !Clash(room, a, b, l)
    ensures Clash(Advance(r, max, room, turn), a, b, l) <==> TakesRoute(room, turn, a, b, l) || TakesRoute(room, turn, b, a, l)
  {
    hide Inv, Reachable, Clash, TakesRoute, Advance;
    ReachableHolds(r, max, room);
    if turn.On? && turn.id in {a, b} && turn.id in room {
      var x, y := turn.id, if turn.id == a then b else a;
      ClashIsMutual(room, a, b, l);
      TurnClashes(r, max, room, turn, x, y, l);
      ClashIsMutual(Advance(r, max, room, turn), a, b, l);
      OnlyTurnsTake(room, turn, y, x, l);
    } else {
      OthersDoNotClash(r, max, room, turn, a, b, l);
    }
  }

  lemma ClashIsMutual(room: Newsroom, a: Id, b: Id, l: Locale)
    ensures Clash(room, a, b, l) == Clash(room, b, a, l)
  {
  }

  lemma OnlyTurnsTake(room: Newsroom, turn: Turn, x: Id, y: Id, l: Locale)
    requires turn.On? && turn.id != x
    ensures !TakesRoute(room, turn, x, y, l)
  {
  }

  lemma TurnClashes(r: Rules, max: nat, room: Newsroom, turn: Turn, x: Id, y: Id, l: Locale)
    requires turn.On? && turn.id == x && x in room && x != y && Inv(r, room[x]) && !Clash(room, x, y, l)
    ensures Clash(Advance(r, max, room, turn), x, y, l) <==> TakesRoute(room, turn, x, y, l)
  {
    hide Inv, Next, CompletesPublication;
    var next := Next(r, max, SlugsOfOthers(room, x), room[x], turn.step);
    var slug := if y in room && room[y].item.entry.Some? && l in room[y].item.entry.value.rows
                then room[y].item.entry.value.rows[l].slug else "";
    ShownByCompletion(r, max, SlugsOfOthers(room, x), room[x], turn.step, l, slug);
    assert ShownUnder(next, l, slug) && y in room && ShownUnder(room[y], l, slug) <==> Clash(Advance(r, max, room, turn), x, y, l);
  }

  lemma OthersDoNotClash(r: Rules, max: nat, room: Newsroom, turn: Turn, a: Id, b: Id, l: Locale)
    requires !(turn.On? && turn.id in {a, b} && turn.id in room) && !Clash(room, a, b, l)
    ensures !Clash(Advance(r, max, room, turn), a, b, l) && !TakesRoute(room, turn, a, b, l) && !TakesRoute(room, turn, b, a, l)
  {
    hide Next, CompletesPublication;
  }

  /** The two items share a route then only as long as one of them is renamed and not published. */
  lemma RoutesClashOnlyAfterRename(r: Rules, max: nat, room: Newsroom, a: Id, b: Id, l: Locale)
    requires Reachable(r, max, room) && Clash(room, a, b, l)
    ensures exists id | id in {a, b} ::
              var e := room[id].item.entry.value;
              e.content.slug != e.rows[l].slug && !e.status.Published?
  {
    ReachableHolds(r, max, room);
    var x := room[a].item.entry.value;
    assert Inv(r, room[a]) && Inv(r, room[b]);
    var id := if x.content.slug != x.rows[l].slug then a else b;
    assert id in {a, b};
  }

  // ---------------------------------------------------------------- checking before publishing

  predicate HasVersion(room: Newsroom, x: Id, v: Version) {
    x in room && room[x].item.entry.Some? && room[x].item.entry.value.version == v
  }

  /** Versions only grow, and content stays the same as long as the version does. */
  lemma ContentFollowsVersion(r: Rules, max: nat, taken: set<string>, t: Track, step: Step)
    ensures var after := Next(r, max, taken, t, step).item.entry;
      after.Some? ==>
        && t.item.entry.Some? && t.item.entry.value.version <= after.value.version
        && (t.item.entry.value.version == after.value.version ==> after.value.content == t.item.entry.value.content)
  {
    hide Apply, DoComplete, DoCompensate, DoSettle;
    match step
    case Do(expected, op) => if Apply(r, t.item, expected, taken, op).Ok? { ApplyMovesOn(r, t.item, expected, taken, op); }
    case Complete(key, fault) => CompletionKeepsContent(r, max, t, key, fault);
    case Compensate(key, fault) => CompensationKeepsContent(t, key, fault);
    case Settle(key, fault) => SettlingKeepsContent(t, key, fault);
    case _ =>
  }

  lemma ApplyMovesOn(r: Rules, item: Item, expected: Version, taken: set<string>, op: Op)
    requires Apply(r, item, expected, taken, op).Ok?
    ensures var after := Apply(r, item, expected, taken, op).value.entry;
      item.entry.Some? && (after.Some? ==> after.value.version == item.entry.value.version + 1)
  {
  }

  lemma CompletionKeepsContent(r: Rules, max: nat, t: Track, key: Key, fault: Fault)
    ensures var after := DoComplete(r, max, t, key, fault).item.entry;
      after.Some? ==> t.item.entry.Some? && after.value.version == t.item.entry.value.version && after.value.content == t.item.entry.value.content
  {
    hide Displaced;
  }

  lemma CompensationKeepsContent(t: Track, key: Key, fault: Fault)
    ensures var after := DoCompensate(t, key, fault).item.entry;
      after.Some? ==> t.item.entry.Some? && after.value.version == t.item.entry.value.version && after.value.content == t.item.entry.value.content
  {
    hide Compensated;
  }

  lemma SettlingKeepsContent(t: Track, key: Key, fault: Fault)
    ensures var after := DoSettle(t, key, fault).item.entry;
      after.Some? ==> t.item.entry.Some? && after.value.version == t.item.entry.value.version && after.value.content == t.item.entry.value.content
  {
  }

  /** While `x` has a slug, nobody else comes to be shown under it. */
  lemma SlugKeepsOthersOut(r: Rules, max: nat, room: Newsroom, turn: Turn, x: Id, y: Id, l: Locale)
    requires RoomInv(r, room) && x in room && room[x].item.entry.Some? && x != y
    requires y in room ==> !ShownUnder(room[y], l, room[x].item.entry.value.content.slug)
    ensures var after := Advance(r, max, room, turn);
      y in after ==> !ShownUnder(after[y], l, room[x].item.entry.value.content.slug)
  {
    hide Inv, Next, CompletesPublication;
    if turn.On? && turn.id == y && y in room {
      ShownByCompletion(r, max, SlugsOfOthers(room, y), room[y], turn.step, l, room[x].item.entry.value.content.slug);
    }
  }

  lemma {:induction false} NobodyMovesIn(r: Rules, max: nat, room: Newsroom, turns: seq<Turn>, x: Id, y: Id, l: Locale, v: Version)
    requires RoomInv(r, room) && HasVersion(room, x, v) && x != y
    requires y in room ==> !ShownUnder(room[y], l, room[x].item.entry.value.content.slug)
    ensures var after := Run(r, max, room, turns);
      && x in after && (after[x].item.entry.Some? ==> v <= after[x].item.entry.value.version)
      && (HasVersion(after, x, v) ==>
            && after[x].item.entry.value.content == room[x].item.entry.value.content
            && (y in after ==> !ShownUnder(after[y], l, room[x].item.entry.value.content.slug)))
    decreases |turns|
  {
    hide Inv, Next, ShownUnder;
    if turns != [] {
      var n := |turns| - 1;
      assert turns == turns[..n] + [turns[n]];
      NobodyMovesIn(r, max, room, turns[..n], x, y, l, v);
      RunKeeps(r, max, room, turns[..n]);
      RunAppends(r, max, room, turns[..n], turns[n]);
      var before := Run(r, max, room, turns[..n]);
      if turns[n].On? && turns[n].id == x && x in before {
        ContentFollowsVersion(r, max, SlugsOfOthers(before, x), before[x], turns[n].step);
      }
      if HasVersion(before, x, v) { SlugKeepsOthersOut(r, max, before, turns[n], x, y, l); }
    }
  }

  /** What a caller can check before publishing `x`: if nobody else is shown under its slug in a
      locale, its publication takes nobody's route there, whatever happens until it completes. */
  lemma CheckedPublicationNeverClashes(r: Rules, max: nat, room: Newsroom, turns: seq<Turn>, fault: Fault, x: Id, y: Id, l: Locale, v: Version)
    requires Reachable(r, max, room) && HasVersion(room, x, v) && x != y
    requires y in room ==> !ShownUnder(room[y], l, room[x].item.entry.value.content.slug)
    requires StartPublish(r, room[x].item, v).Ok?
    requires var started := Advance(r, max, room, On(x, Do(v, OpStartPublish)));
      CompletesAt(Run(r, max, started, turns), On(x, Complete(PublishKey(v + 1), fault)), x)
    ensures var started := Advance(r, max, room, On(x, Do(v, OpStartPublish)));
      !TakesRoute(Run(r, max, started, turns), On(x, Complete(PublishKey(v + 1), fault)), x, y, l)
  {
    hide Inv, Next, ShownUnder, CompletesPublication, Reachable, Run;
    ReachableHolds(r, max, room);
    var start := On(x, Do(v, OpStartPublish));
    var started := Advance(r, max, room, start);
    AdvanceKeeps(r, max, room, start);
    StartKeepsSlug(r, max, room, x, v);
    NobodyMovesIn(r, max, started, turns, x, y, l, v + 1);
    RunKeeps(r, max, started, turns);
    CompletingIsAtVersion(r, Run(r, max, started, turns)[x], Complete(PublishKey(v + 1), fault));
  }

  lemma StartKeepsSlug(r: Rules, max: nat, room: Newsroom, x: Id, v: Version)
    requires HasVersion(room, x, v) && StartPublish(r, room[x].item, v).Ok?
    ensures var started := Advance(r, max, room, On(x, Do(v, OpStartPublish)));
      && HasVersion(started, x, v + 1) && started[x].item.entry.value.content == room[x].item.entry.value.content
      && (forall y | y != x :: y in started <==> y in room)
      && forall y | y != x && y in room :: started[y] == room[y]
  {
  }

  lemma CompletingIsAtVersion(r: Rules, t: Track, step: Step)
    requires Inv(r, t) && CompletesPublication(t, step)
    ensures t.item.entry.Some? && t.item.entry.value.version == step.key.version
  {
    assert AttemptInv(t, step.key);
    assert EventInv(t.item.entry, step.key, t.item.outbox[step.key]);
  }

  // ---------------------------------------------------------------- clashes happen

  predicate PublishedPlainly(r: Rules, before: Track, after: Track) {
    && before.item.entry.Some? && after.item.entry.Some? && after.attempts == map[]
    && var e := after.item.entry.value;
      && e.content == before.item.entry.value.content && e.version == before.item.entry.value.version + 1
      && e.status.Published? && e.rows == RowsOf(r, e.content, map[], e.version)
  }

  lemma PlainSteps(r: Rules, max: nat, taken: set<string>, t: Track, v: Version)
    requires t.attempts == map[] && StartPublish(r, t.item, v).Ok? && t.item.entry.value.content.covers == map[]
    ensures var key := PublishKey(v + 1);
      var claimed := Next(r, max, taken, Next(r, max, taken, t, Do(v, OpStartPublish)), Claim(key));
      PublishedPlainly(r, t, Next(r, max, taken, claimed, Complete(key, Fine)))
  {
    hide Displaced, StartPublish, DoComplete, Publishable;
    var key := PublishKey(v + 1);
    var started := t.(item := StartPublish(r, t.item, v).value);
    StartedEntry(r, t.item, v);
    var claimed := DoClaim(started, key);
    assert At(claimed, key, Claimed) && claimed.attempts == map[key := Attempt(Claimed, {})];
    StartKeepsTheRest(r, t.item, v);
    PlainCompletion(r, max, t, claimed, v);
  }

  lemma StartKeepsTheRest(r: Rules, item: Item, v: Version)
    requires StartPublish(r, item, v).Ok?
    ensures item.entry.Some? && item.entry.value.version == v
    ensures var e, after := item.entry.value, StartPublish(r, item, v).value.entry.value;
      after == e.(version := v + 1, status := Publishing, revisions := e.revisions[v + 1 := e.content])
  {
    hide Publishable;
  }

  lemma PlainCompletion(r: Rules, max: nat, t: Track, claimed: Track, v: Version)
    requires t.item.entry.Some? && t.item.entry.value.version == v && t.item.entry.value.content.covers == map[]
    requires var e := t.item.entry.value;
      claimed.item.entry == Some(e.(version := v + 1, status := Publishing, revisions := e.revisions[v + 1 := e.content]))
    requires var key := PublishKey(v + 1);
      && claimed == t.(item := claimed.item, attempts := map[key := Attempt(Claimed, {})])
      && key in claimed.item.outbox && claimed.item.outbox[key].status.Processing? && claimed.item.outbox[key].covers == map[]
    ensures PublishedPlainly(r, t.(attempts := map[]), DoComplete(r, max, claimed, PublishKey(v + 1), Fine))
  {
    hide Displaced;
    var key := PublishKey(v + 1);
    assert GrantsFor(map[], v + 1) == map[];
    assert claimed.attempts[key].done == Wanted(key, claimed.item.outbox[key]);
    assert CompletePublish(r, claimed.item, v + 1, map[]).Ok?;
    assert DoComplete(r, max, claimed, key, Fine).attempts == map[];
  }

  /** An idle item without covers, published by one undisturbed attempt. */
  lemma PlainPublication(r: Rules, max: nat, room: Newsroom, id: Id) returns (t: Track)
    requires Reachable(r, max, room) && id in room && room[id].attempts == map[]
    requires room[id].item.entry.Some? && !Busy(room[id].item.entry.value.status)
    requires Publishable(r, room[id].item.entry.value.content) && room[id].item.entry.value.content.covers == map[]
    ensures Reachable(r, max, room[id := t]) && PublishedPlainly(r, room[id], t)
  {
    hide Reachable, Next, PublishedPlainly;
    var taken := SlugsOfOthers(room, id);
    var v := room[id].item.entry.value.version;
    var key := PublishKey(v + 1);
    StartSucceedsExactly(r, max, room, id, v);
    PlainSteps(r, max, taken, room[id], v);
    var one := Next(r, max, taken, room[id], Do(v, OpStartPublish));
    var two := Next(r, max, taken, one, Claim(key));
    t := Next(r, max, taken, two, Complete(key, Fine));
    AdvanceOne(r, max, room, room, id, Do(v, OpStartPublish));
    AdvanceOne(r, max, room, room[id := one], id, Claim(key));
    AdvanceOne(r, max, room, room[id := two], id, Complete(key, Fine));
  }

  /** And they do: an item is published, renamed, and another one published under its old slug. */
  lemma RouteClashHappens(r: Rules, max: nat, content: NewsContent, slug: string, l: Locale)
    requires Publishable(r, content) && content.covers == map[] && slug != content.slug && l in content.translations
    ensures exists room: Newsroom :: Reachable(r, max, room) && Clash(room, "a", "b", l)
  {
    hide Reachable, Next, PublishedPlainly;
    assert Reachable(r, max, map[]) by { EmptyIsReachable(r, max); }
    var first := NewTrack(content);
    var room := Advance(r, max, map[], Create("a", content));
    ReachableAdvance(r, max, map[], Create("a", content));
    var shown := PlainPublication(r, max, room, "a");
    Revealed(r, room["a"], shown, l);
    room := room["a" := shown];
    NextVersionIsFree(r, max, room, "a");
    assert SlugsOfOthers(room, "a") == {};
    var renamed := Next(r, max, SlugsOfOthers(room, "a"), shown, Do(2, OpUpdate(content.(slug := slug))));
    RenameKeepsRows(r, max, shown, content.(slug := slug));
    AdvanceOne(r, max, room, room, "a", Do(2, OpUpdate(content.(slug := slug))));
    room := room["a" := renamed];
    assert content.slug !in SlugsOfOthers(room, "b");
    var both := Advance(r, max, room, Create("b", content));
    ReachableAdvance(r, max, room, Create("b", content));
    assert both == room["b" := first];
    var second := PlainPublication(r, max, both, "b");
    Revealed(r, both["b"], second, l);
    assert Clash(both["b" := second], "a", "b", l);
  }

  lemma Revealed(r: Rules, before: Track, after: Track, l: Locale)
    requires PublishedPlainly(r, before, after) && l in before.item.entry.value.content.translations
    ensures after.item.entry.Some? && after.attempts == map[]
    ensures var e := after.item.entry.value;
      && e.version == before.item.entry.value.version + 1 && !Busy(e.status) && e.content == before.item.entry.value.content
      && l in e.rows && e.rows[l].slug == e.content.slug
  {
  }

  lemma NextVersionIsFree(r: Rules, max: nat, room: Newsroom, id: Id)
    requires Reachable(r, max, room) && id in room && room[id].item.entry.Some?
    ensures room[id].item.entry.value.version + 1 !in room[id].item.entry.value.revisions
  {
    ReachableHolds(r, max, room);
    assert Inv(r, room[id]);
  }

  lemma RenameKeepsRows(r: Rules, max: nat, t: Track, content: NewsContent)
    requires t.item.entry.Some? && !Busy(t.item.entry.value.status)
    requires t.item.entry.value.version + 1 !in t.item.entry.value.revisions
    ensures var after := Next(r, max, {}, t, Do(t.item.entry.value.version, OpUpdate(content)));
      after.item.entry.Some? && after.item.entry.value.rows == t.item.entry.value.rows && after.item.entry.value.content == content
  {
  }
}
