/** Church units and their parent links: the guard against cycles is exact, every save it lets
    through keeps a forest, and so the walk over ancestors always ends. */
module ChurchUnits {
  import opened ContentModel

  datatype UnitStatus = Active | Paused | Archived

  datatype Unit = Unit(key: string, name: string, parent: Option<Id>, status: UnitStatus, version: Version)

  /** What a caller may set; `valid` stands for the checks on key, name and status. */
  datatype Input = Input(key: string, name: string, parent: Option<Id>, valid: bool)

  type Units = map<Id, Unit>

  function Parent(units: Units, id: Id): Option<Id> {
    if id in units then units[id].parent else None
  }

  /** The unit reached from `id` over `n` parent links. */
  function Climb(units: Units, id: Id, n: nat): Option<Id>
    decreases n
  {
    if id !in units then None
    else if n == 0 then Some(id)
    else if units[id].parent.None? then None
    else Climb(units, units[id].parent.value, n - 1)
  }

  /** `a` is `x` or one of its ancestors. */
  ghost predicate IsAbove(units: Units, a: Id, x: Id) {
    exists n: nat :: Climb(units, x, n) == Some(a)
  }

  /** No unit is its own proper ancestor. */
  ghost predicate Acyclic(units: Units) {
    forall x, n: nat | 0 < n :: x in units ==> Climb(units, x, n) != Some(x)
  }

  ghost predicate Ranked(units: Units, rank: map<Id, nat>) {
    && rank.Keys == units.Keys
    && forall id | id in units && units[id].parent.Some? && units[id].parent.value in units ::
         rank[units[id].parent.value] < rank[id]
  }

  /** Parents exist, and ranks fall along parent links. */
  ghost predicate Forest(units: Units) {
    && (forall id | id in units && units[id].parent.Some? :: units[id].parent.value in units)
    && exists rank :: Ranked(units, rank)
  }

  lemma {:induction false} RanksFall(units: Units, rank: map<Id, nat>, x: Id, n: nat)
    requires Ranked(units, rank) && Climb(units, x, n).Some?
    ensures x in units && Climb(units, x, n).value in units
    ensures rank[Climb(units, x, n).value] + n <= rank[x]
    decreases n
  {
    if n > 0 { RanksFall(units, rank, units[x].parent.value, n - 1); }
  }

  /** No walk up from `x` takes more than `bound` links. */
  ghost predicate EndsWithin(units: Units, x: Id, bound: nat) {
    forall n: nat | bound < n :: Climb(units, x, n).None?
  }

  /** A forest has no cycle, and every walk over ancestors ends. */
  lemma ForestIsAcyclic(units: Units)
    requires Forest(units)
    ensures Acyclic(units)
    ensures forall x | x in units :: exists bound :: EndsWithin(units, x, bound)
  {
    var rank :| Ranked(units, rank);
    forall x, n: nat | 0 < n && x in units ensures Climb(units, x, n) != Some(x) {
      if Climb(units, x, n).Some? { RanksFall(units, rank, x, n); }
    }
    forall x | x in units ensures EndsWithin(units, x, rank[x]) {
      forall n: nat | rank[x] < n ensures Climb(units, x, n).None? {
        if Climb(units, x, n).Some? { RanksFall(units, rank, x, n); }
      }
    }
  }

  // ---------------------------------------------------------------- the guard

  function ClimbOn(units: Units, from: Option<Id>, n: nat): Option<Id> {
    if from.Some? then Climb(units, from.value, n) else None
  }

  /** WouldCreateChurchUnitCycle: walk up from the proposed parent. It ends, and finds exactly
      whether the unit is the proposed parent or one of its ancestors. */
  method WouldCreateCycle(units: Units, id: Id, parent: Id) returns (cycle: bool)
    requires Forest(units)
    ensures cycle <==> id == parent || IsAbove(units, id, parent)
  {
    if id == parent { return true; }
    ghost var rank :| Ranked(units, rank);
    var current := Some(parent);
    ghost var n: nat := 0;
    while current.Some? && current.value in units
      invariant forall k: nat | k < n :: Climb(units, parent, k) != Some(id)
      invariant forall m: nat | n <= m :: Climb(units, parent, m) == ClimbOn(units, current, m - n)
      decreases current.Some?, if current.Some? && current.value in units then rank[current.value] else 0
    {
      assert Climb(units, parent, n) == Some(current.value);
      if current.value == id { return true; }
      current := units[current.value].parent;
      n := n + 1;
    }
    return false;
  }

  function WithParent(units: Units, id: Id, parent: Option<Id>): Units
    requires id in units
  {
    units[id := units[id].(parent := parent)]
  }

  /** A unit below `id` has its parent below `id`, unless it is `id` itself. */
  lemma BelowSteps(units: Units, id: Id, x: Id)
    requires x in units && x != id && units[x].parent.Some?
    ensures IsAbove(units, id, x) <==> IsAbove(units, id, units[x].parent.value)
  {
    if IsAbove(units, id, x) {
      var n: nat :| Climb(units, x, n) == Some(id);
      assert n > 0 && Climb(units, units[x].parent.value, n - 1) == Some(id);
    }
    if IsAbove(units, id, units[x].parent.value) {
      var n: nat :| Climb(units, units[x].parent.value, n) == Some(id);
      assert Climb(units, x, n + 1) == Some(id);
    }
  }

  /** What the guard lets through keeps the forest. */
  lemma SaveKeepsForest(units: Units, id: Id, parent: Option<Id>)
    requires Forest(units) && id in units
    requires parent.Some? ==> parent.value in units && id != parent.value && !IsAbove(units, id, parent.value)
    ensures Forest(WithParent(units, id, parent))
  {
    var after := WithParent(units, id, parent);
    var rank :| Ranked(units, rank);
    var lift: nat := if parent.Some? then rank[parent.value] + 1 else 0;
    ghost var lifted := map x | x in units :: if IsAbove(units, id, x) then rank[x] + lift else rank[x];
    assert IsAbove(units, id, id) by { assert Climb(units, id, 0) == Some(id); }
    forall x | x in after && after[x].parent.Some? && after[x].parent.value in after
      ensures lifted[after[x].parent.value] < lifted[x]
    {
      if x != id { BelowSteps(units, id, x); }
    }
    assert Ranked(after, lifted);
  }

  /** And what it rejects would have made a cycle. */
  lemma RejectedWouldCycle(units: Units, id: Id, parent: Id)
    requires id in units && parent in units && (id == parent || IsAbove(units, id, parent))
    ensures !Acyclic(WithParent(units, id, Some(parent)))
  {
    var after := WithParent(units, id, Some(parent));
    assert Climb(units, parent, 0) == Some(parent);
    var n: nat :| Climb(units, parent, n) == Some(id);
    var first := FirstReach(units, id, parent, n);
    SamePath(units, after, id, parent, first);
    assert Climb(after, id, first + 1) == Some(id);
  }

  lemma {:induction false} FirstReach(units: Units, id: Id, x: Id, n: nat) returns (first: nat)
    requires Climb(units, x, n) == Some(id)
    ensures first <= n && Climb(units, x, first) == Some(id) && forall k: nat | k < first :: Climb(units, x, k) != Some(id)
    decreases n
  {
    if k: nat :| k < n && Climb(units, x, k) == Some(id) {
      first := FirstReach(units, id, x, k);
    } else {
      first := n;
    }
  }

  /** Up to the first visit of `id`, changing the parent of `id` changes nothing. */
  lemma {:induction false} SamePath(units: Units, after: Units, id: Id, x: Id, n: nat)
    requires id in units && after == WithParent(units, id, Parent(after, id))
    requires Climb(units, x, n) == Some(id) && forall k: nat | k < n :: Climb(units, x, k) != Some(id)
    ensures Climb(after, x, n) == Some(id)
    decreases n
  {
    if n > 0 {
      assert Climb(units, x, 0) == Some(x);
      var up := units[x].parent.value;
      forall k: nat | k < n - 1 ensures Climb(units, up, k) != Some(id) {
        assert Climb(units, x, k + 1) == Climb(units, up, k);
      }
      SamePath(units, after, id, up, n - 1);
    }
  }

  // ---------------------------------------------------------------- the operations

  lemma CreateKeepsForest(units: Units, id: Id, unit: Unit)
    requires Forest(units) && id !in units && (unit.parent.Some? ==> unit.parent.value in units)
    ensures Forest(units[id := unit])
  {
    var rank :| Ranked(units, rank);
    var top: nat := if unit.parent.Some? then rank[unit.parent.value] + 1 else 0;
    assert Ranked(units[id := unit], rank[id := top]);
  }

  lemma SameParentsKeepForest(units: Units, id: Id, unit: Unit)
    requires Forest(units) && id in units && unit.parent == units[id].parent
    ensures Forest(units[id := unit])
  {
    var rank :| Ranked(units, rank);
    assert Ranked(units[id := unit], rank);
  }

  /** When SaveChurchUnit accepts, given whether the parent would close a cycle. */
  function SaveError(units: Units, id: Id, expected: Version, input: Input, cycle: bool): Option<Error> {
    if expected < 1 || !input.valid then Some(Invalid)
    else if id !in units then Some(NotFound)
    else if units[id].key != input.key then Some(Invalid)
    else if input.parent.Some? && cycle then Some(Invalid)
    else if units[id].version != expected then Some(Precondition)
    else if input.parent.Some? && input.parent.value !in units then Some(Conflict)
    else None
  }

  class Service {
    var units: Units

    /** The unit each create request made, by its idempotency key. */
    var requests: map<string, Id>

    ghost predicate Valid()
      reads this
    {
      Forest(units) && forall request | request in requests :: requests[request] in units
    }

    constructor ()
      ensures Valid() && units == map[] && requests == map[]
    {
      units, requests := map[], map[];
      new;
      assert Ranked(units, map[]);
    }

    /** What a create request that is not made for the first time, or not acceptable, comes to. */
    function Answered(input: Input, request: string): Option<Result<Id>>
      requires forall request | request in requests :: requests[request] in units
      reads this
    {
      if !input.valid then Some(Err(Invalid))
      else if input.parent.Some? && input.parent.value !in units then Some(Err(NotFound))
      else if request in requests then
        Some(if units[requests[request]].key == input.key then Ok(requests[request]) else Err(Conflict))
      else if exists other | other in units :: units[other].key == input.key then Some(Err(Conflict))
      else None
    }

    /** CreateChurchUnit; `id` is a fresh UUID and `request` the idempotency key. A repeated request
        gives the unit it made, under whatever name and parent that has by now. */
    method CreateChurchUnit(id: Id, input: Input, request: string) returns (result: Result<Id>)
      requires Valid() && id !in units
      modifies this
      ensures Valid()
      ensures var answer := old(Answered(input, request));
        if answer.Some? then result == answer.value && units == old(units) && requests == old(requests)
        else && result == Ok(id)
             && units == old(units)[id := Unit(input.key, input.name, input.parent, Active, 1)]
             && requests == old(requests)[request := id]
    {
      if !input.valid { return Err(Invalid); }
      if input.parent.Some? && input.parent.value !in units { return Err(NotFound); }
      if request in requests {
        var made := requests[request];
        return if units[made].key != input.key then Err(Conflict) else Ok(made);
      }
      if exists other | other in units :: units[other].key == input.key { return Err(Conflict); }
      var unit := Unit(input.key, input.name, input.parent, Active, 1);
      CreateKeepsForest(units, id, unit);
      units := units[id := unit];
      requests := requests[request := id];
      return Ok(id);
    }

    /** SaveChurchUnit: a missing parent is no ancestor of anything, so the guard passes it and
        the foreign key refuses it. */
    method SaveChurchUnit(id: Id, expected: Version, input: Input) returns (result: Result<()>)
      requires Valid()
      modifies this`units
      ensures Valid()
      ensures var before := old(units);
        var cycle := input.parent.Some? && (id == input.parent.value || IsAbove(before, id, input.parent.value));
        var error := SaveError(before, id, expected, input, cycle);
        if error.Some? then result == Err(error.value) && units == before
        else result == Ok(()) && units == before[id := before[id].(name := input.name, parent := input.parent, version := expected + 1)]
    {
      hide Forest, IsAbove;
      if expected < 1 || !input.valid { return Err(Invalid); }
      if id !in units { return Err(NotFound); }
      var unit := units[id];
      if unit.key != input.key { return Err(Invalid); }
      if input.parent.Some? {
        var cycle := WouldCreateCycle(units, id, input.parent.value);
        if cycle { return Err(Invalid); }
      }
      if unit.version != expected { return Err(Precondition); }
      if input.parent.Some? && input.parent.value !in units { return Err(Conflict); }
      SaveKeepsForest(units, id, input.parent);
      var moved := WithParent(units, id, input.parent);
      SameParentsKeepForest(moved, id, moved[id].(name := input.name, version := expected + 1));
      units := moved[id := moved[id].(name := input.name, version := expected + 1)];
      assert units == old(units)[id := unit.(name := input.name, parent := input.parent, version := expected + 1)];
      return Ok(());
    }

    method SetChurchUnitStatus(id: Id, expected: Version, status: UnitStatus) returns (result: Result<()>)
      requires Valid()
      modifies this`units
      ensures Valid()
      ensures result.Err? ==> units == old(units)
      ensures result.Ok? <==> expected >= 1 && id in old(units) && old(units)[id].version == expected
      ensures result.Ok? ==> units == old(units)[id := old(units)[id].(status := status, version := expected + 1)]
    {
      if expected < 1 { return Err(Invalid); }
      if id !in units { return Err(NotFound); }
      if units[id].version != expected { return Err(Precondition); }
      SameParentsKeepForest(units, id, units[id].(status := status, version := expected + 1));
      units := units[id := units[id].(status := status, version := expected + 1)];
      return Ok(());
    }
  }
}
