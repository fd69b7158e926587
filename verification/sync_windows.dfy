/** Media sync windows: the union of the scheduled occurrences of all bound meetings, as the
    shortest sorted list of windows. */
module SyncWindows {
  import opened ContentModel
  import opened Recurrence
  import opened Sorting

  /** From `startsAt` up to, but not including, `endsAt`. */
  datatype Window = Window(startsAt: Instant, endsAt: Instant)

  predicate In(t: Instant, w: Window) {
    w.startsAt <= t < w.endsAt
  }

  predicate Covers(ws: seq<Window>, t: Instant) {
    exists i | 0 <= i < |ws| :: In(t, ws[i])
  }

  predicate SortedByStart(ws: seq<Window>) {
    forall i, j | 0 <= i < j < |ws| :: ws[i].startsAt <= ws[j].startsAt
  }

  /** Each window ends strictly before any later one starts. */
  predicate Separated(ws: seq<Window>) {
    forall i, j | 0 <= i < j < |ws| :: ws[i].endsAt < ws[j].startsAt
  }

  predicate Proper(ws: seq<Window>) {
    forall i | 0 <= i < |ws| :: ws[i].startsAt < ws[i].endsAt
  }

  // ---------------------------------------------------------------- the union is determined

  /** Proper, separated windows with the same coverage are the same windows. */
  lemma {:induction false} CoverageDetermines(a: seq<Window>, b: seq<Window>)
    requires Proper(a) && Proper(b) && Separated(a) && Separated(b)
    requires forall t :: Covers(a, t) <==> Covers(b, t)
    ensures a == b
    decreases |a|
  {
    if a != [] && b != [] {
      FirstWindow(a, b);
      FirstWindow(b, a);
      RestCovers(a, b);
      CoverageDetermines(a[1..], b[1..]);
    } else if a != [] {
      assert In(a[0].startsAt, a[0]) && Covers(a, a[0].startsAt) && !Covers(b, a[0].startsAt);
      assert false;
    } else if b != [] {
      assert In(b[0].startsAt, b[0]) && Covers(b, b[0].startsAt) && !Covers(a, b[0].startsAt);
      assert false;
    }
  }

  lemma FirstWindow(a: seq<Window>, b: seq<Window>)
    requires a != [] && b != [] && Proper(a) && Proper(b) && Separated(a) && Separated(b)
    requires forall t :: Covers(a, t) <==> Covers(b, t)
    ensures b[0].startsAt <= a[0].startsAt
    ensures a[0].startsAt == b[0].startsAt ==> a[0].endsAt <= b[0].endsAt
  {
    assert In(a[0].startsAt, a[0]) && Covers(a, a[0].startsAt);
    var i :| 0 <= i < |b| && In(a[0].startsAt, b[i]);
    assert i == 0 || b[0].endsAt < b[i].startsAt;
    if a[0].startsAt == b[0].startsAt && b[0].endsAt < a[0].endsAt {
      EndIsUncovered(b);
      assert In(b[0].endsAt, a[0]);
    }
  }

  lemma EndIsUncovered(ws: seq<Window>)
    requires ws != [] && Separated(ws)
    ensures !Covers(ws, ws[0].endsAt)
  {
    forall i | 0 <= i < |ws| ensures !In(ws[0].endsAt, ws[i]) {
      assert i == 0 || ws[0].endsAt < ws[i].startsAt;
    }
  }

  lemma RestCovers(a: seq<Window>, b: seq<Window>)
    requires a != [] && b != [] && Separated(a) && Separated(b) && a[0] == b[0]
    requires Proper(a) && Proper(b)
    requires forall t :: Covers(a, t) <==> Covers(b, t)
    ensures forall t :: Covers(a[1..], t) <==> Covers(b[1..], t)
  {
    forall t ensures Covers(a[1..], t) <==> Covers(b[1..], t) {
      RestIsBeyond(a, t);
      RestIsBeyond(b, t);
    }
  }

  lemma RestIsBeyond(ws: seq<Window>, t: Instant)
    requires ws != [] && Separated(ws) && Proper(ws)
    ensures Covers(ws[1..], t) <==> Covers(ws, t) && ws[0].endsAt <= t
  {
    if Covers(ws[1..], t) {
      var i :| 0 <= i < |ws[1..]| && In(t, ws[1..][i]);
      assert In(t, ws[i + 1]);
    }
    if Covers(ws, t) && ws[0].endsAt <= t {
      var i :| 0 <= i < |ws| && In(t, ws[i]);
      assert ws[1..][i - 1] == ws[i];
    }
  }

  // ---------------------------------------------------------------- unionWindows

  predicate StartsBefore(a: Window, b: Window) {
    a.startsAt < b.startsAt
  }

  lemma SameWindowsSameCoverage(a: seq<Window>, b: seq<Window>, t: Instant)
    requires multiset(a) == multiset(b)
    ensures Covers(a, t) <==> Covers(b, t)
  {
    if Covers(a, t) {
      var i :| 0 <= i < |a| && In(t, a[i]);
      assert a[i] in multiset(b);
    }
    if Covers(b, t) {
      var i :| 0 <= i < |b| && In(t, b[i]);
      assert b[i] in multiset(a);
    }
  }

  lemma CoversOneMore(ws: seq<Window>, w: Window, t: Instant)
    ensures Covers(ws + [w], t) <==> Covers(ws, t) || In(t, w)
  {
    if Covers(ws, t) {
      var i :| 0 <= i < |ws| && In(t, ws[i]);
      assert (ws + [w])[i] == ws[i];
    }
    if In(t, w) { assert (ws + [w])[|ws|] == w; }
  }

  /** The list after one more window was merged into it. */
  predicate Merges(before: seq<Window>, w: Window, after: seq<Window>) {
    && before != []
    && var last := before[|before| - 1];
       if w.startsAt <= last.endsAt
       then after == before[|before| - 1 := last.(endsAt := if last.endsAt < w.endsAt then w.endsAt else last.endsAt)]
       else after == before + [w]
  }

  lemma MergeKeeps(before: seq<Window>, w: Window, after: seq<Window>)
    requires Merges(before, w, after) && before[|before| - 1].startsAt <= w.startsAt && Separated(before)
    ensures after != [] && after[|after| - 1].startsAt <= w.startsAt && Separated(after)
    ensures Proper(before) && w.startsAt < w.endsAt ==> Proper(after)
  {
  }

  lemma MergeCovers(before: seq<Window>, w: Window, after: seq<Window>, t: Instant)
    requires Merges(before, w, after) && before[|before| - 1].startsAt <= w.startsAt
    ensures Covers(after, t) <==> Covers(before, t) || In(t, w)
  {
    var init := before[..|before| - 1];
    var last := before[|before| - 1];
    assert before == init + [last];
    if w.startsAt <= last.endsAt {
      assert after == init + [after[|after| - 1]];
      CoversOneMore(init, last, t);
      CoversOneMore(init, after[|after| - 1], t);
    } else {
      CoversOneMore(before, w, t);
    }
  }

  lemma StartsAscend(sorted: seq<Window>)
    requires Sorted(sorted, StartsBefore)
    ensures forall i | 1 <= i < |sorted| :: sorted[i - 1].startsAt <= sorted[i].startsAt
  {
    forall i | 1 <= i < |sorted| ensures sorted[i - 1].startsAt <= sorted[i].startsAt {
      assert !StartsBefore(sorted[i], sorted[i - 1]);
    }
  }

  lemma ProperIsOrderFree(a: seq<Window>, b: seq<Window>)
    requires multiset(a) == multiset(b) && Proper(a)
    ensures Proper(b)
  {
    forall i | 0 <= i < |b| ensures b[i].startsAt < b[i].endsAt { assert b[i] in multiset(a); }
  }

  lemma SeparatedIsSorted(ws: seq<Window>)
    requires Proper(ws) && Separated(ws)
    ensures SortedByStart(ws)
  {
    forall i, j | 0 <= i < j < |ws| ensures ws[i].startsAt <= ws[j].startsAt {
      assert ws[i].startsAt < ws[i].endsAt;
    }
  }

  /** The next window extends the last one, or starts a new one. */
  method MergeInto(values: seq<Window>, value: Window) returns (result: seq<Window>)
    requires 0 < |values|
    ensures Merges(values, value, result)
  {
    var last := values[|values| - 1];
    if last.endsAt < value.startsAt { return values + [value]; }
    if value.endsAt > last.endsAt { return values[|values| - 1 := last.(endsAt := value.endsAt)]; }
    return values;
  }

  /** unionWindows: sort, then extend the last window or start a new one. Coverage is kept, and
      the result is sorted and strictly separated, whatever the windows are. */
  method UnionWindows(values: seq<Window>) returns (result: seq<Window>)
    ensures Separated(result)
    ensures forall t :: Covers(result, t) <==> Covers(values, t)
    ensures Proper(values) ==> Proper(result) && SortedByStart(result)
  {
    if |values| == 0 { return []; }
    var sorted := SortClone(values, StartsBefore);
    StartsAscend(sorted);
    hide Sort, Covers, Separated, Sorted, Proper, SortedByStart;
    if Proper(values) { ProperIsOrderFree(values, sorted); }
    assert |sorted| > 0 by { assert |multiset(sorted)| == |multiset(values)|; }
    result := [sorted[0]];
    FirstMerged(sorted);
    var i := 1;
    while i < |sorted|
      invariant 1 <= i <= |sorted| && 0 < |result|
      invariant Separated(result)
      invariant result[|result| - 1].startsAt <= sorted[i - 1].startsAt
      invariant forall t :: Covers(result, t) <==> Covers(sorted[..i], t)
      invariant Proper(sorted) ==> Proper(result)
    {
      ghost var before := result;
      var value := sorted[i];
      result := MergeInto(result, value);
      MergeKeeps(before, value, result);
      if Proper(sorted) { ProperAt(sorted, i); }
      CoverageGrows(before, sorted, i, result);
      i := i + 1;
    }
    assert sorted[..|sorted|] == sorted;
    forall t ensures Covers(result, t) <==> Covers(values, t) { SameWindowsSameCoverage(sorted, values, t); }
    if Proper(values) { SeparatedIsSorted(result); }
  }

  lemma CoverageGrows(before: seq<Window>, sorted: seq<Window>, i: nat, after: seq<Window>)
    requires i < |sorted| && Merges(before, sorted[i], after) && before[|before| - 1].startsAt <= sorted[i].startsAt
    requires forall t :: Covers(before, t) <==> Covers(sorted[..i], t)
    ensures forall t :: Covers(after, t) <==> Covers(sorted[..i + 1], t)
  {
    hide Covers, Merges;
    forall t ensures Covers(after, t) <==> Covers(sorted[..i + 1], t) {
      assert sorted[..i + 1] == sorted[..i] + [sorted[i]];
      CoversOneMore(sorted[..i], sorted[i], t);
      MergeCovers(before, sorted[i], after, t);
    }
  }

  lemma FirstMerged(sorted: seq<Window>)
    requires |sorted| > 0
    ensures Separated([sorted[0]]) && sorted[..1] == [sorted[0]]
    ensures Proper(sorted) ==> Proper([sorted[0]])
  {
  }

  lemma ProperAt(ws: seq<Window>, i: nat)
    requires Proper(ws) && i < |ws|
    ensures ws[i].startsAt < ws[i].endsAt
  {
  }

  /** The result depends on what the input covers, not on its order or on how ties were sorted. */
  lemma UnionIsOrderFree(a: seq<Window>, b: seq<Window>, unionA: seq<Window>, unionB: seq<Window>)
    requires multiset(a) == multiset(b)
    requires Proper(unionA) && Separated(unionA) && forall t :: Covers(unionA, t) <==> Covers(a, t)
    requires Proper(unionB) && Separated(unionB) && forall t :: Covers(unionB, t) <==> Covers(b, t)
    ensures unionA == unionB
  {
    forall t ensures Covers(unionA, t) <==> Covers(unionB, t) { SameWindowsSameCoverage(a, b, t); }
    CoverageDetermines(unionA, unionB);
  }

  // ---------------------------------------------------------------- ListMediaSyncWindows

  /** An active meeting with an enabled binding, and its overrides. */
  datatype Bound = Bound(meeting: Meeting, overrides: seq<Override>)

  /** An occurrence of the meeting that is not cancelled, over all days, meets the range and is
      under way at `t`. */
  ghost predicate MeetsAt(bound: Bound, from: Instant, to: Instant, t: Instant) {
    exists o :: Occurs(bound.meeting, bound.overrides, o) && !o.cancelled && Meets(o, from, to, t)
  }

  predicate Meets(o: Occurrence, from: Instant, to: Instant, t: Instant) {
    o.startsAt < to && from < o.endsAt && o.startsAt <= t < o.endsAt
  }

  ghost predicate SomeMeetsAt(bounds: seq<Bound>, from: Instant, to: Instant, t: Instant) {
    exists i | 0 <= i < |bounds| :: MeetsAt(bounds[i], from, to, t)
  }

  method WindowsOf(occurrences: seq<Occurrence>) returns (windows: seq<Window>)
    requires forall i | 0 <= i < |occurrences| :: occurrences[i].startsAt < occurrences[i].endsAt
    ensures Proper(windows)
    ensures forall t :: Covers(windows, t) <==> exists o :: o in occurrences && !o.cancelled && o.startsAt <= t < o.endsAt
  {
    windows := [];
    for i := 0 to |occurrences|
      invariant Proper(windows)
      invariant forall t :: Covers(windows, t) <==> exists k :: 0 <= k < i && !occurrences[k].cancelled && occurrences[k].startsAt <= t < occurrences[k].endsAt
    {
      var o := occurrences[i];
      ghost var before := windows;
      if !o.cancelled { windows := windows + [Window(o.startsAt, o.endsAt)]; }
      forall t ensures Covers(windows, t) <==> exists k :: 0 <= k < i + 1 && !occurrences[k].cancelled && occurrences[k].startsAt <= t < occurrences[k].endsAt {
        CoversOneMore(before, Window(o.startsAt, o.endsAt), t);
      }
    }
  }

  lemma AppendCovers(a: seq<Window>, b: seq<Window>, t: Instant)
    ensures Covers(a + b, t) <==> Covers(a, t) || Covers(b, t)
  {
    if Covers(a, t) {
      var i :| 0 <= i < |a| && In(t, a[i]);
      assert (a + b)[i] == a[i];
    }
    if Covers(b, t) {
      var i :| 0 <= i < |b| && In(t, b[i]);
      assert (a + b)[|a| + i] == b[i];
    }
  }

  /** The answer of one meeting is under way exactly when an occurrence of the range is. */
  lemma AnswerMeets(bound: Bound, from: Instant, to: Instant, result: seq<Occurrence>, t: Instant)
    requires Ordered(bound.meeting.zone) && Resolves(bound, from, to)
    requires Answers(bound.meeting, Index(bound.overrides), from, to, result)
    ensures MeetsAt(bound, from, to, t) ==> exists o :: o in result && !o.cancelled && o.startsAt <= t < o.endsAt
  {
    hide Occurs, OccurrenceOn, Index, Ordered, ValidOverrides, ValidSchedule, ValidLengths;
    if MeetsAt(bound, from, to, t) {
      var o :| Occurs(bound.meeting, bound.overrides, o) && !o.cancelled && Meets(o, from, to, t);
      OccursIs(bound.meeting, bound.overrides, o);
      assert o in result;
    }
  }

  /** The query of one meeting is accepted. */
  ghost predicate Resolves(bound: Bound, from: Instant, to: Instant) {
    && ValidOverrides(bound.overrides) && ValidSchedule(bound.meeting.schedule)
    && ValidLengths(bound.meeting, bound.overrides, from, to)
  }

  /** No occurrence of the range escapes the scan of any meeting. */
  ghost predicate AllFound(bounds: seq<Bound>, from: Instant, to: Instant) {
    forall i | 0 <= i < |bounds| :: NoneEscapes(bounds[i].meeting, Index(bounds[i].overrides), from, to)
  }

  /** Fails exactly when the query of some meeting does. Otherwise the windows are proper, sorted
      and strictly separated, and lie where an occurrence of the range, of a bound meeting and not
      cancelled, is under way; if none escapes the scan they cover every instant with one, also
      where it reaches beyond the range. */
  method ListMediaSyncWindows(bounds: seq<Bound>, from: Instant, to: Instant) returns (result: Result<seq<Window>>)
    requires from < to
    requires forall i | 0 <= i < |bounds| ::
      && Ordered(bounds[i].meeting.zone)
      && forall a, b :: bounds[i].meeting.id(a) == bounds[i].meeting.id(b) ==> a == b
    ensures result.Ok? <==> forall i | 0 <= i < |bounds| :: Resolves(bounds[i], from, to)
    ensures result.Ok? ==> Proper(result.value) && SortedByStart(result.value) && Separated(result.value)
    ensures result.Ok? ==> forall t :: Covers(result.value, t) ==> SomeMeetsAt(bounds, from, to, t)
    ensures result.Ok? && AllFound(bounds, from, to) ==> forall t :: SomeMeetsAt(bounds, from, to, t) ==> Covers(result.value, t)
  {
    hide Answers, NoneEscapes, Covers, SomeMeetsAt, Proper, SortedByStart, Separated, Ordered, ValidLengths, LookedAt, Occurs,
      ValidOverrides, ValidSchedule, Index;
    NothingYet(bounds, from, to);
    var windows: seq<Window> := [];
    for i := 0 to |bounds|
      invariant Proper(windows)
      invariant forall k | 0 <= k < i :: Resolves(bounds[k], from, to)
      invariant Lists(bounds[..i], from, to, windows, AllFound(bounds, from, to))
    {
      var occurrences :- ResolveOccurrences(bounds[i].meeting, bounds[i].overrides, from, to);
      var more := WindowsOf(occurrences);
      OneMoreListed(bounds, i, from, to, windows, occurrences, more, AllFound(bounds, from, to));
      ProperTogether(windows, more);
      windows := windows + more;
    }
    assert bounds[..|bounds|] == bounds;
    var union := UnionWindows(windows);
    return Ok(union);
  }

  /** The windows lie where some meeting meets, and are all of them if none escapes. */
  ghost predicate Lists(bounds: seq<Bound>, from: Instant, to: Instant, windows: seq<Window>, all: bool) {
    && (forall t :: Covers(windows, t) ==> SomeMeetsAt(bounds, from, to, t))
    && (all ==> forall t :: SomeMeetsAt(bounds, from, to, t) ==> Covers(windows, t))
  }

  lemma NothingYet(bounds: seq<Bound>, from: Instant, to: Instant)
    ensures Lists(bounds[..0], from, to, [], AllFound(bounds, from, to)) && Proper([])
  {
  }

  lemma ProperTogether(a: seq<Window>, b: seq<Window>)
    requires Proper(a) && Proper(b)
    ensures Proper(a + b)
  {
  }

  lemma OneMoreListed(bounds: seq<Bound>, i: nat, from: Instant, to: Instant, windows: seq<Window>,
                      occurrences: seq<Occurrence>, more: seq<Window>, all: bool)
    requires i < |bounds| && Lists(bounds[..i], from, to, windows, all)
    requires Ordered(bounds[i].meeting.zone) && Resolves(bounds[i], from, to)
    requires forall o | o in occurrences ::
      Occurs(bounds[i].meeting, bounds[i].overrides, o) && o.startsAt < to && from < o.endsAt
    requires all ==> Answers(bounds[i].meeting, Index(bounds[i].overrides), from, to, occurrences)
    requires forall t :: Covers(more, t) <==> exists o :: o in occurrences && !o.cancelled && o.startsAt <= t < o.endsAt
    ensures Lists(bounds[..i + 1], from, to, windows + more, all)
  {
    hide Answers, Covers, SomeMeetsAt, MeetsAt, Occurs, Resolves, Ordered;
    forall t
      ensures Covers(windows + more, t) ==> SomeMeetsAt(bounds[..i + 1], from, to, t)
      ensures all && SomeMeetsAt(bounds[..i + 1], from, to, t) ==> Covers(windows + more, t)
    {
      AppendCovers(windows, more, t);
      OccurrencesMeet(bounds[i], occurrences, from, to, t);
      if all { AnswerMeets(bounds[i], from, to, occurrences, t); }
      OneMoreMeets(bounds, i, from, to, t);
    }
  }

  lemma OccurrencesMeet(bound: Bound, occurrences: seq<Occurrence>, from: Instant, to: Instant, t: Instant)
    requires forall o | o in occurrences :: Occurs(bound.meeting, bound.overrides, o) && o.startsAt < to && from < o.endsAt
    ensures (exists o :: o in occurrences && !o.cancelled && o.startsAt <= t < o.endsAt) ==> MeetsAt(bound, from, to, t)
  {
    hide Occurs;
    if o :| o in occurrences && !o.cancelled && o.startsAt <= t < o.endsAt {
      assert Occurs(bound.meeting, bound.overrides, o) && Meets(o, from, to, t);
    }
  }

  /** And none does, in any range, exactly when looking one day back suffices for each meeting. */
  lemma FoundExactly(bounds: seq<Bound>)
    requires forall i | 0 <= i < |bounds| ::
      Ordered(bounds[i].meeting.zone) && bounds[i].meeting.schedule.Weekly? && bounds[i].meeting.schedule.clock.Some?
    ensures (forall from, to :: AllFound(bounds, from, to)) <==>
            forall i | 0 <= i < |bounds| :: LookbackSuffices(bounds[i].meeting, Index(bounds[i].overrides))
  {
    forall i | 0 <= i < |bounds|
      ensures (forall from, to :: NoneEscapes(bounds[i].meeting, Index(bounds[i].overrides), from, to)) <==>
              LookbackSuffices(bounds[i].meeting, Index(bounds[i].overrides))
    {
      LookbackSufficesExactly(bounds[i].meeting, Index(bounds[i].overrides));
    }
    if forall from, to :: AllFound(bounds, from, to) {
      forall i, from, to | 0 <= i < |bounds| ensures NoneEscapes(bounds[i].meeting, Index(bounds[i].overrides), from, to) {
        assert AllFound(bounds, from, to);
      }
    }
  }

  lemma OneMoreMeets(bounds: seq<Bound>, i: nat, from: Instant, to: Instant, t: Instant)
    requires i < |bounds|
    ensures SomeMeetsAt(bounds[..i + 1], from, to, t) <==> SomeMeetsAt(bounds[..i], from, to, t) || MeetsAt(bounds[i], from, to, t)
  {
    if SomeMeetsAt(bounds[..i], from, to, t) {
      var k :| 0 <= k < i && MeetsAt(bounds[..i][k], from, to, t);
      assert bounds[..i + 1][k] == bounds[k];
    }
    if MeetsAt(bounds[i], from, to, t) { assert bounds[..i + 1][i] == bounds[i]; }
    if SomeMeetsAt(bounds[..i + 1], from, to, t) {
      var k :| 0 <= k < i + 1 && MeetsAt(bounds[..i + 1][k], from, to, t);
      if k < i { assert bounds[..i][k] == bounds[k]; }
    }
  }
}
