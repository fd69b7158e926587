/** NewPageGroupManifest: the canonical order of manifest items. It is what lets a digest stand
    for the items whatever order they were read in, and the rest of the model keep them in a
    map. */
module ManifestOrder {
  import opened ContentModel
  import opened PageGroup
  import opened Sorting

  datatype Item = Item(id: Id, member: Member)

  /** The order of the items: by id. */
  predicate ById(a: Item, b: Item) {
    Less(a.id, b.id)
  }

  lemma ByIdCompares()
    ensures Compares(ById)
  {
    forall a: Item, b: Item ensures !(ById(a, b) && ById(b, a)) { LessIsTotal(a.id, b.id); }
    forall a: Item, b: Item, c: Item | ById(a, c) ensures ById(a, b) || ById(b, c) {
      LessIsTotal(a.id, b.id);
      if Less(b.id, a.id) { LessIsTransitive(b.id, a.id, c.id); }
    }
  }

  predicate Distinct(items: seq<Item>) {
    forall i, j | 0 <= i < j < |items| :: items[i].id != items[j].id
  }

  // ---------------------------------------------------------------- the canonical order

  function Canonical(items: seq<Item>): seq<Item> {
    Sort(items, ById)
  }

  lemma SameIdSameItem(a: seq<Item>, x: Item, y: Item)
    requires Distinct(a) && x in a && y in a
    ensures x.id == y.id ==> x == y
  {
    var i :| 0 <= i < |a| && a[i] == x;
    var j :| 0 <= j < |a| && a[j] == y;
  }

  lemma DistinctIsOrderFree(a: seq<Item>, b: seq<Item>)
    requires multiset(a) == multiset(b) && Distinct(a)
    ensures Distinct(b)
  {
    NoRepeatsIsOrderFree(a, b);
    forall i, j | 0 <= i < j < |b| ensures b[i].id != b[j].id {
      assert b[i] in multiset(a) && b[j] in multiset(a);
      SameIdSameItem(a, b[i], b[j]);
    }
  }

  /** The least item of a sorted sequence comes first, whichever sequence it is. */
  lemma SameHead(a: seq<Item>, b: seq<Item>)
    requires Sorted(a, ById) && Sorted(b, ById) && Distinct(a) && multiset(a) == multiset(b) && a != [] && b != []
    ensures a[0] == b[0]
  {
    assert a[0] in multiset(b) && b[0] in multiset(a);
    LessIsTotal(a[0].id, b[0].id);
    SameIdSameItem(a, a[0], b[0]);
    var i :| 0 <= i < |b| && b[i] == a[0];
    var j :| 0 <= j < |a| && a[j] == b[0];
  }

  lemma TailMultiset(a: seq<Item>)
    requires a != []
    ensures multiset(a[1..]) == multiset(a) - multiset{a[0]}
  {
    assert a == [a[0]] + a[1..];
  }

  /** Items with distinct ids have one sorted order. */
  lemma {:induction false} SortedIsUnique(a: seq<Item>, b: seq<Item>)
    requires Sorted(a, ById) && Sorted(b, ById) && Distinct(a) && Distinct(b) && multiset(a) == multiset(b)
    ensures a == b
    decreases |a|
  {
    assert |a| == |multiset(a)| && |b| == |multiset(b)|;
    if a != [] {
      SameHead(a, b);
      TailMultiset(a);
      TailMultiset(b);
      SortedIsUnique(a[1..], b[1..]);
      assert a == [a[0]] + a[1..] && b == [b[0]] + b[1..];
    }
  }

  /** The canonical order does not depend on the order the items came in, and sorting again
      changes nothing. */
  lemma CanonicalIsOrderFree(a: seq<Item>, b: seq<Item>)
    requires multiset(a) == multiset(b) && Distinct(a)
    ensures Canonical(a) == Canonical(b) && Canonical(Canonical(a)) == Canonical(a)
  {
    ByIdCompares();
    CanonicalFacts(a);
    CanonicalFacts(b);
    CanonicalFacts(Canonical(a));
    DistinctIsOrderFree(a, Canonical(a));
    DistinctIsOrderFree(a, Canonical(b));
    DistinctIsOrderFree(a, Canonical(Canonical(a)));
    SortedIsUnique(Canonical(a), Canonical(b));
    SortedIsUnique(Canonical(Canonical(a)), Canonical(a));
  }

  lemma CanonicalFacts(items: seq<Item>)
    ensures multiset(Canonical(items)) == multiset(items) && Sorted(Canonical(items), ById)
  {
    ByIdCompares();
    SortPermutes(items, ById);
    SortSorts(items, ById);
  }

  // ---------------------------------------------------------------- the manifest

  /** A manifest before its digest is taken; `module` is known by its group. */
  datatype Body = Body(pageId: string, source: Version, target: Version, items: seq<Item>)

  predicate ValidItem(item: Item) {
    item.id != "" && 1 <= item.member.source <= item.member.target
  }

  function ItemMap(items: seq<Item>): map<Id, Member> {
    if items == [] then map[] else ItemMap(items[..|items| - 1])[items[|items| - 1].id := items[|items| - 1].member]
  }

  lemma {:induction false} ItemMapLooksUp(items: seq<Item>)
    requires Distinct(items)
    ensures forall i | 0 <= i < |items| :: items[i].id in ItemMap(items) && ItemMap(items)[items[i].id] == items[i].member
    ensures forall id | id in ItemMap(items) :: Item(id, ItemMap(items)[id]) in items
    decreases |items|
  {
    if items != [] {
      ItemMapLooksUp(items[..|items| - 1]);
      assert items == items[..|items| - 1] + [items[|items| - 1]];
    }
  }

  /** The digest of a manifest kept as a map is well defined: whatever sequences hold the same
      items, the canonical body is the same. */
  lemma MapDeterminesBody(a: seq<Item>, b: seq<Item>)
    requires Distinct(a) && Distinct(b)
    ensures ItemMap(a) == ItemMap(b) <==> Canonical(a) == Canonical(b)
  {
    ItemMapLooksUp(a);
    ItemMapLooksUp(b);
    if ItemMap(a) == ItemMap(b) {
      SameMembers(a, b);
      CanonicalIsOrderFree(a, b);
    }
    if Canonical(a) == Canonical(b) {
      CanonicalFacts(a);
      CanonicalFacts(b);
      forall id | id in ItemMap(a) ensures id in ItemMap(b) && ItemMap(b)[id] == ItemMap(a)[id] {
        assert Item(id, ItemMap(a)[id]) in multiset(b);
      }
      forall id | id in ItemMap(b) ensures id in ItemMap(a) { assert Item(id, ItemMap(b)[id]) in multiset(a); }
    }
  }

  lemma SameMembers(a: seq<Item>, b: seq<Item>)
    requires Distinct(a) && Distinct(b) && ItemMap(a) == ItemMap(b)
    ensures multiset(a) == multiset(b)
  {
    ItemMapLooksUp(a);
    ItemMapLooksUp(b);
    forall x: Item ensures multiset(a)[x] == multiset(b)[x] {
      OnceEach(a, x);
      OnceEach(b, x);
      if x in a { assert x.id in ItemMap(b); }
      if x in b { assert x.id in ItemMap(a); }
      assert x in multiset(a) <==> x in a;
      assert x in multiset(b) <==> x in b;
    }
  }

  lemma CanonicalOfTwo(p: Item, q: Item)
    requires p.id == q.id
    ensures Canonical([p, q]) == [p, q]
  {
    LessIsTotal(p.id, q.id);
    EmptySort(ById);
    assert [p][..|[p]| - 1] == [];
    assert Insert([], p, ById) == [p];
    assert Sort([p], ById) == [p];
    assert [p, q][..|[p, q]| - 1] == [p];
    assert Insert([p], q, ById) == [p] + [q];
  }

  /** With two items of the same id the order they came in would show. */
  lemma DuplicatesBreakTheOrder(p: Item, q: Item)
    requires p.id == q.id && p != q
    ensures multiset([p, q]) == multiset([q, p]) && Canonical([p, q]) != Canonical([q, p])
  {
    CanonicalOfTwo(p, q);
    CanonicalOfTwo(q, p);
    assert [p, q][0] != [q, p][0];
  }

  // ---------------------------------------------------------------- NewPageGroupManifest

  method NewPageGroupManifest(pageId: string, source: Version, target: Version, items: seq<Item>) returns (result: Result<Body>)
    ensures result.Ok? <==> pageId != "" && 1 <= source <= target && forall i | 0 <= i < |items| :: ValidItem(items[i])
    ensures result.Ok? ==> result.value == Body(pageId, source, target, Canonical(items))
  {
    hide Sort, ValidItem;
    ByIdCompares();
    if pageId == "" || source < 1 || target < source { return Err(Invalid); }
    var sorted := SortClone(items, ById);
    var i := 0;
    while i < |sorted|
      invariant 0 <= i <= |sorted|
      invariant forall k | 0 <= k < i :: ValidItem(sorted[k])
    {
      if !ValidItem(sorted[i]) {
        assert sorted[i] in multiset(items);
        return Err(Invalid);
      }
      i := i + 1;
    }
    forall k | 0 <= k < |items| ensures ValidItem(items[k]) {
      assert items[k] in multiset(sorted);
    }
    return Ok(Body(pageId, source, target, sorted));
  }

  /** The same guards, on the manifest as the rest of the model keeps it. */
  lemma GuardsAgree(source: Version, target: Version, items: seq<Item>)
    requires Distinct(items)
    ensures (1 <= source <= target && forall item | item in items :: 1 <= item.member.source <= item.member.target) <==>
            ValidManifest(Manifest(source, target, ItemMap(items)))
  {
    ItemMapLooksUp(items);
    var m := ItemMap(items);
    if ValidManifest(Manifest(source, target, m)) {
      forall item | item in items ensures 1 <= item.member.source <= item.member.target { assert item.id in m; }
    }
    if 1 <= source <= target && forall item | item in items :: 1 <= item.member.source <= item.member.target {
      forall id | id in m ensures 1 <= m[id].source <= m[id].target { assert Item(id, m[id]) in items; }
    }
  }
}
