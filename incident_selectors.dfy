/**
 * The derived views of the client cache: the ordered projection of `ids`
 * through `items`, lookup by id, the feed filter, and the status filters.
 * They read the slice state and change nothing. The projection requires the
 * cache invariant that every listed id is cached, which every reducer keeps.
 */
module IncidentSelectors {
  import opened Wrappers
  import opened JsValues
  import opened Schema
  import opened IncidentSlice

  /** `ids.map((id) => items[id])`. */
  function Project(items: map<Id, Incident>, ids: seq<Id>): (r: seq<Incident>)
    requires forall id :: id in ids ==> id in items
    ensures |r| == |ids|
    ensures forall i :: 0 <= i < |r| ==> r[i] == items[ids[i]]
  {
    if ids == [] then []
    else
      var tail := Project(items, ids[1..]);
      [items[ids[0]]] + tail
  }

  /** `selectAllIncidents`: element i is the cached incident of `ids[i]`. */
  function SelectAll(s: CacheState): (r: seq<Incident>)
    requires IdsInItems(s)
    ensures |r| == |s.ids|
    ensures forall i :: 0 <= i < |r| ==> r[i] == s.items[s.ids[i]]
  {
    Project(s.items, s.ids)
  }

  /** `selectIncidentById(id)`: `items[id] || currentIncident`. */
  function SelectById(s: CacheState, id: Id): (r: Option<Incident>)
    ensures id in s.items ==> r == Some(s.items[id])
    ensures id !in s.items ==> r == s.current
  {
    if id in s.items then Some(s.items[id]) else s.current
  }

  /** The fallback does not look at ids: a missing id yields whatever incident is current. */
  lemma SelectByIdFallbackIgnoresId(s: CacheState, id: Id, other: Incident)
    requires id !in s.items && s.current == Some(other) && other.id != id
    ensures SelectById(s, id) == Some(other) && SelectById(s, id).value.id != id
  {
  }

  /** `xs.filter(keep)`. */
  function Filter<T>(xs: seq<T>, keep: T -> bool): (r: seq<T>)
    ensures |r| <= |xs|
  {
    if xs == [] then []
    else (if keep(xs[0]) then [xs[0]] else []) + Filter(xs[1..], keep)
  }

  /** `ids.filter((id) => id !== target)` is the generic filter with that test. */
  lemma {:induction false} RemoveIdIsFilter(ids: seq<Id>, target: Id, keep: Id -> bool)
    requires forall x :: keep(x) == (x != target)
    ensures RemoveId(ids, target) == Filter(ids, keep)
  {
    if ids != [] {
      RemoveIdIsFilter(ids[1..], target, keep);
    }
  }

  /**
   * Removing an id keeps every other id, duplicates included, in its
   * original order: the result is `ids` at increasing positions, and a
   * position is kept exactly when its id is not the target.
   */
  lemma RemoveIdKeepsOrder(ids: seq<Id>, target: Id) returns (idx: seq<nat>)
    ensures |idx| == |RemoveId(ids, target)|
    ensures forall k :: 0 <= k < |idx| ==> idx[k] < |ids| && RemoveId(ids, target)[k] == ids[idx[k]]
    ensures forall k, l :: 0 <= k < l < |idx| ==> idx[k] < idx[l]
    ensures forall i :: 0 <= i < |ids| ==> (ids[i] != target <==> i in idx)
  {
    var keep := (x: Id) => x != target;
    RemoveIdIsFilter(ids, target, keep);
    idx := FilterSubsequence(ids, keep);
  }

  /** An element survives the filter exactly when it is in the input and is kept. */
  lemma {:induction false} FilterMembers<T>(xs: seq<T>, keep: T -> bool)
    ensures forall x :: x in Filter(xs, keep) <==> x in xs && keep(x)
  {
    if xs != [] {
      FilterMembers(xs[1..], keep);
      assert xs == [xs[0]] + xs[1..];
    }
  }

  /** The positions, from `from` on, whose element the filter keeps, in increasing order. */
  function KeptPositions<T>(xs: seq<T>, keep: T -> bool, from: nat): (p: seq<nat>)
    requires from <= |xs|
    ensures forall k :: 0 <= k < |p| ==> from <= p[k] < |xs|
    decreases |xs| - from
  {
    if from == |xs| then []
    else (if keep(xs[from]) then [from] else []) + KeptPositions(xs, keep, from + 1)
  }

  /** The kept positions are increasing, and are exactly the positions whose element is kept. */
  lemma {:induction false} KeptPositionsExact<T>(xs: seq<T>, keep: T -> bool, from: nat)
    requires from <= |xs|
    ensures var p := KeptPositions(xs, keep, from);
            && (forall k, l :: 0 <= k < l < |p| ==> p[k] < p[l])
            && (forall i :: from <= i < |xs| ==> (keep(xs[i]) <==> i in p))
    decreases |xs| - from
  {
    if from < |xs| {
      KeptPositionsExact(xs, keep, from + 1);
    }
  }

  /** The filter's k-th element is the input's element at the k-th kept position. */
  lemma {:induction false} KeptPositionsSelect<T>(xs: seq<T>, keep: T -> bool, from: nat)
    requires from <= |xs|
    ensures var p := KeptPositions(xs, keep, from);
            && |p| == |Filter(xs[from..], keep)|
            && forall k :: 0 <= k < |p| ==> Filter(xs[from..], keep)[k] == xs[p[k]]
    decreases |xs| - from
  {
    if from < |xs| {
      KeptPositionsSelect(xs, keep, from + 1);
      assert xs[from..][1..] == xs[from + 1..];
    }
  }

  /**
   * The filter is an order-preserving subsequence: `idx` lists, in
   * increasing order, the input positions it keeps, and they are exactly the
   * positions whose element is kept.
   */
  lemma FilterSubsequence<T>(xs: seq<T>, keep: T -> bool) returns (idx: seq<nat>)
    ensures |idx| == |Filter(xs, keep)|
    ensures forall k :: 0 <= k < |idx| ==> idx[k] < |xs| && Filter(xs, keep)[k] == xs[idx[k]]
    ensures forall k, l :: 0 <= k < l < |idx| ==> idx[k] < idx[l]
    ensures forall i :: 0 <= i < |xs| ==> (keep(xs[i]) <==> i in idx)
  {
    idx := KeptPositions(xs, keep, 0);
    KeptPositionsExact(xs, keep, 0);
    KeptPositionsSelect(xs, keep, 0);
    assert xs[0..] == xs;
  }

  /** A filter that keeps every element returns its input. */
  lemma {:induction false} FilterKeepsAll<T>(xs: seq<T>, keep: T -> bool)
    requires forall x :: x in xs ==> keep(x)
    ensures Filter(xs, keep) == xs
  {
    if xs != [] {
      assert forall x :: x in xs[1..] ==> x in xs;
      FilterKeepsAll(xs[1..], keep);
    }
  }

  /** Two tests that agree on the input filter it the same way. */
  lemma {:induction false} FilterSameTest<T>(xs: seq<T>, f: T -> bool, g: T -> bool)
    requires forall x :: x in xs ==> f(x) == g(x)
    ensures Filter(xs, f) == Filter(xs, g)
  {
    if xs != [] {
      assert forall x :: x in xs[1..] ==> x in xs;
      FilterSameTest(xs[1..], f, g);
    }
  }

  /**
   * The feed test: a non-empty category or status filter must equal the
   * incident's, and a non-empty severity filter must parse to its severity
   * (a filter that parses to NaN equals no severity).
   */
  predicate KeepForFeed(f: Filters, inc: Incident) {
    && !(f.category != "" && inc.category != f.category)
    && !(f.status != "" && inc.status != f.status)
    && !(f.severity != "" && Int(inc.severity) != ParseInt(f.severity))
  }

  /** `selectFilteredIncidents`. */
  function SelectFiltered(s: CacheState): seq<Incident>
    requires IdsInItems(s)
  {
    Filter(SelectAll(s), inc => KeepForFeed(s.filters, inc))
  }

  /** `selectIncidentsByStatus(status)`. */
  function SelectByStatus(s: CacheState, status: string): seq<Incident>
    requires IdsInItems(s)
  {
    Filter(SelectAll(s), (inc: Incident) => inc.status == status)
  }

  /** `selectPendingIncidents`. */
  function SelectPending(s: CacheState): seq<Incident>
    requires IdsInItems(s)
  {
    Filter(SelectAll(s), (inc: Incident) => inc.status == "pending")
  }

  /** An incident is in the feed iff it is listed and each non-empty filter matches it. */
  lemma FilteredMembers(s: CacheState, inc: Incident)
    requires IdsInItems(s)
    ensures inc in SelectFiltered(s) <==>
      && inc in SelectAll(s)
      && (s.filters.category != "" ==> inc.category == s.filters.category)
      && (s.filters.status != "" ==> inc.status == s.filters.status)
      && (s.filters.severity != "" ==> ParseInt(s.filters.severity) == Int(inc.severity))
  {
    FilterMembers(SelectAll(s), inc => KeepForFeed(s.filters, inc));
  }

  /** With every filter empty the feed is the whole list. */
  lemma FilteredWithoutFilters(s: CacheState)
    requires IdsInItems(s) && s.filters == INITIAL_FILTERS
    ensures SelectFiltered(s) == SelectAll(s)
  {
    FilterKeepsAll(SelectAll(s), inc => KeepForFeed(s.filters, inc));
  }

  /** The feed keeps the list's order: it is the list at increasing positions. */
  lemma FilteredIsSubsequence(s: CacheState) returns (idx: seq<nat>)
    requires IdsInItems(s)
    ensures |idx| == |SelectFiltered(s)|
    ensures forall k :: 0 <= k < |idx| ==> idx[k] < |SelectAll(s)| && SelectFiltered(s)[k] == SelectAll(s)[idx[k]]
    ensures forall k, l :: 0 <= k < l < |idx| ==> idx[k] < idx[l]
  {
    idx := FilterSubsequence(SelectAll(s), inc => KeepForFeed(s.filters, inc));
  }

  /** The pending view is the status view for 'pending', and holds only pending incidents. */
  lemma PendingIsByStatus(s: CacheState)
    requires IdsInItems(s)
    ensures SelectPending(s) == SelectByStatus(s, "pending")
    ensures forall inc :: inc in SelectPending(s) ==> inc.status == "pending"
  {
    FilterSameTest(SelectAll(s), (inc: Incident) => inc.status == "pending",
                   (inc: Incident) => inc.status == "pending");
    FilterMembers(SelectAll(s), (inc: Incident) => inc.status == "pending");
  }

  /**
   * After `fetchIncidents.fulfilled` with a list of distinct ids (as the
   * server's list always is), the whole-list view is exactly that list, in
   * the server's order.
   */
  lemma FetchedListIsShown(s: CacheState, incidents: seq<Incident>, now: int)
    requires DistinctIds(incidents)
    ensures IdsInItems(ReplaceAll(s, incidents, now))
    ensures SelectAll(ReplaceAll(s, incidents, now)) == incidents
  {
    var r := ReplaceAll(s, incidents, now);
    NormalizeDistinct(incidents);
    var all := SelectAll(r);
    assert |all| == |incidents|;
    forall i | 0 <= i < |incidents| ensures all[i] == incidents[i] {
      assert r.ids[i] == incidents[i].id;
    }
  }
}
