/** What readers of news see, field by field and locale by locale. */
module PublicNews {
  import opened ContentModel
  import opened News
  import opened NewsInvariants
  import opened NewsGuarantees

  /** The address of an asset: below its public URL, or else below its id. */
  function Address(r: Rules, asset: string): string {
    (if r.publicUrl(asset) != "" then r.publicUrl(asset) else "/assets/" + asset) + "/large"
  }

  /** The rows show the content: one for each translation, with its text; the article with the
      detail cover, the home page with the home cover or, if there is none, the detail cover. */
  ghost predicate ShowsNews(r: Rules, rows: map<Locale, NewsRow>, content: NewsContent, v: Version) {
    && (forall l :: l in rows <==> l in content.translations)
    && forall l | l in rows ::
         && rows[l].version == v
         && rows[l].text == content.translations[l]
         && rows[l].slug == content.slug
         && rows[l].fields == content.fields
         && rows[l].image == (if Detail in content.covers then Address(r, content.covers[Detail]) else "")
         && rows[l].homeImage == (if HomePage in content.covers then Address(r, content.covers[HomePage]) else rows[l].image)
  }

  lemma RenderedRows(r: Rules, content: NewsContent, v: Version)
    ensures ShowsNews(r, RowsOf(r, content, GrantsFor(content.covers, v), v), content, v)
  {
  }

  /** In every reachable state the rows show the revision that was published. */
  lemma RowsShowRevision(r: Rules, max: nat, room: Newsroom, id: Id)
    requires Reachable(r, max, room) && id in room && room[id].item.entry.Some? && room[id].item.entry.value.rows != map[]
    ensures var e := room[id].item.entry.value;
      && e.publishedVersion.Some? && e.publishedVersion.value in e.revisions
      && ShowsNews(r, e.rows, e.revisions[e.publishedVersion.value], e.publishedVersion.value)
  {
    hide Reachable, Inv, ShowsNews, RowsOf, GrantsFor;
    ReachableHolds(r, max, room);
    EntryOf(r, room[id]);
    var e := room[id].item.entry.value;
    RenderedRows(r, e.revisions[e.publishedVersion.value], e.publishedVersion.value);
  }

  /** A publication that completes shows the item as it was last saved. */
  lemma CompletionShowsDraft(r: Rules, max: nat, room: Newsroom, turn: Turn, id: Id)
    requires Reachable(r, max, room) && CompletesAt(room, turn, id)
    ensures room[id].item.entry.Some? && id in Advance(r, max, room, turn) && Advance(r, max, room, turn)[id].item.entry.Some?
    ensures var e, after := room[id].item.entry.value, Advance(r, max, room, turn)[id].item.entry.value;
      && after.status.Published? && after.content == e.content && after.version == e.version
      && ShowsNews(r, after.rows, e.content, e.version)
  {
    hide Reachable, Inv, ShowsNews, RowsOf, GrantsFor, CompletePublish, Displaced;
    ReachableHolds(r, max, room);
    var t, v := room[id], turn.step.key.version;
    PublicationCompletes(r, t, v);
    CompletionRenders(r, t, v);
    RenderedRows(r, t.item.entry.value.content, v);
  }

  lemma CompletionRenders(r: Rules, t: Track, v: Version)
    requires Inv(r, t) && At(t, PublishKey(v), Claimed)
    ensures t.item.entry.Some?
    ensures var e, done := t.item.entry.value, Completed(r, t.item, PublishKey(v));
      && done.Ok? && done.value.entry.Some? && e.version == v
      && done.value.entry.value.status.Published? && done.value.entry.value.content == e.content && done.value.entry.value.version == v
      && done.value.entry.value.rows == RowsOf(r, e.content, GrantsFor(e.content.covers, v), v)
  {
    hide LedgerInv, Displaced, RowsOf, GrantsFor;
    PublicationCompletes(r, t, v);
    assert AttemptInv(t, PublishKey(v));
    assert EventInv(t.item.entry, PublishKey(v), t.item.outbox[PublishKey(v)]);
  }

  /** What an editor saves: the content becomes the draft and its revision. */
  lemma EditIsSaved(item: Item, expected: Version, taken: set<string>, content: NewsContent)
    requires Update(item, expected, taken, content).Ok?
    ensures var after := Update(item, expected, taken, content).value;
      && item.entry.Some? && after.entry.Some? && after.outbox == item.outbox
      && var e, n := item.entry.value, after.entry.value;
        && n.status.Draft? && n.version == expected + 1 && n.content == content
        && n.revisions == e.revisions[expected + 1 := content]
        && n.rows == e.rows && n.recorded == e.recorded && n.publishedVersion == e.publishedVersion
  {
  }

  /** A publication that fails changes nothing readers see and nothing an editor saved, and can
      be started again at once. */
  lemma FailedPublicationRestarts(r: Rules, max: nat, room: Newsroom, id: Id)
    requires Reachable(r, max, room) && id in room && room[id].item.entry.Some? && room[id].item.entry.value.status.Publishing?
    ensures var e := room[id].item.entry.value;
      && PublishKey(e.version) in room[id].item.outbox
      && var failed := Fail(room[id].item, PublishKey(e.version));
        && failed.entry == Some(e.(status := Draft))
        && StartPublish(r, failed, e.version).Ok?
  {
    hide Reachable, LedgerInv, PublicInv, ExposureInv;
    ReachableHolds(r, max, room);
    EntryOf(r, room[id]);
    var item := room[id].item;
    var v := item.entry.value.version;
    assert PublishKey(v) in item.outbox;
    assert PublishKey(v + 1) !in item.outbox;
  }
}
