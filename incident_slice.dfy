/**
 * The client's normalized incident cache (the `incidents` slice of the Redux
 * store): a map from id to incident, the display order of ids, the incident
 * being viewed, the nearby list, the feed filters, and the request flags.
 * Each reducer is a pure function from the old state and the action's
 * payload to the new state; `IncidentStore` holds the state in fields and
 * applies each reducer in place. The async thunks appear only as the
 * payloads of their pending, fulfilled and rejected actions.
 */
module IncidentSlice {
  import opened Wrappers
  import opened Schema

  datatype Filters = Filters(category: string, status: string, severity: string)

  /** The payload of `setFilters`: the keys it carries (`None` is a key left out). */
  datatype FilterPatch = FilterPatch(category: Option<string>, status: Option<string>, severity: Option<string>)

  /** A partial incident, as spread by `{ ...old, ...incident }`; `id` is always present. */
  datatype IncidentPatch = IncidentPatch(
    id: Id,
    title: Option<string>,
    description: Option<string>,
    category: Option<string>,
    severity: Option<int>,
    status: Option<string>,
    location: Option<Location>,
    media: Option<seq<string>>,
    createdAt: Option<int>,
    updatedAt: Option<int>)

  datatype CacheState = CacheState(
    items: map<Id, Incident>,
    ids: seq<Id>,
    current: Option<Incident>,
    nearby: seq<Incident>,
    filters: Filters,
    loading: bool,
    error: Option<string>,
    lastUpdate: Option<int>)

  /** The async thunks whose lifecycle actions reach the slice. */
  datatype Thunk = FetchAll | FetchById | Create | UpdateStatus | Delete | FetchNearby

  datatype Action =
    | SocketNewIncident(incident: Incident)
    | SocketUpdateIncident(patch: IncidentPatch)
    | SocketDeleteIncident(incidentId: Id)
    | SetFilters(filterPatch: FilterPatch)
    | ClearCurrentIncident
    | ClearError
    | Pending(thunk: Thunk)
    | Rejected(rejected: Thunk, message: string)
    | FetchIncidentsFulfilled(incidents: seq<Incident>, now: int)
    | FetchIncidentByIdFulfilled(fetched: Incident)
    | CreateIncidentFulfilled(created: Incident)
    | UpdateIncidentStatusFulfilled(updated: Incident)
    | DeleteIncidentFulfilled(deletedId: Id)
    | FetchNearbyIncidentsFulfilled(nearbyIncidents: seq<Incident>)

  const INITIAL_FILTERS: Filters := Filters("", "", "")
  const INITIAL_STATE: CacheState := CacheState(map[], [], None, [], INITIAL_FILTERS, false, None, None)

  /** The structural invariant: every listed id has an entry. */
  ghost predicate IdsInItems(s: CacheState) {
    forall id :: id in s.ids ==> id in s.items
  }

  /** Only the request flags differ between the two states. */
  ghost predicate SameData(s: CacheState, r: CacheState) {
    && r.items == s.items && r.ids == s.ids && r.current == s.current
    && r.nearby == s.nearby && r.filters == s.filters && r.lastUpdate == s.lastUpdate
  }

  // ------------------------------------------------------------ helpers

  /** `{ ...inc, ...p }`: every field the patch carries overrides, every other field is kept. */
  function Merge(inc: Incident, p: IncidentPatch): (r: Incident)
    ensures r.id == p.id
    ensures r.title == p.title.GetOr(inc.title) && r.description == p.description.GetOr(inc.description)
    ensures r.category == p.category.GetOr(inc.category) && r.severity == p.severity.GetOr(inc.severity)
    ensures r.status == p.status.GetOr(inc.status) && r.location == p.location.GetOr(inc.location)
    ensures r.media == p.media.GetOr(inc.media) && r.createdAt == p.createdAt.GetOr(inc.createdAt)
    ensures r.updatedAt == p.updatedAt.GetOr(inc.updatedAt)
  {
    Incident(p.id, p.title.GetOr(inc.title), p.description.GetOr(inc.description),
             p.category.GetOr(inc.category), p.severity.GetOr(inc.severity),
             p.status.GetOr(inc.status), p.location.GetOr(inc.location),
             p.media.GetOr(inc.media), p.createdAt.GetOr(inc.createdAt),
             p.updatedAt.GetOr(inc.updatedAt))
  }

  /** A whole document as a patch: what a socket `incident:update` payload is. */
  function WholePatch(inc: Incident): IncidentPatch {
    IncidentPatch(inc.id, Some(inc.title), Some(inc.description), Some(inc.category),
                  Some(inc.severity), Some(inc.status), Some(inc.location), Some(inc.media),
                  Some(inc.createdAt), Some(inc.updatedAt))
  }

  /** Merging a whole document replaces the entry by it; merging a bare id keeps every field. */
  lemma MergeWholeAndEmpty(old_: Incident, inc: Incident)
    ensures Merge(old_, WholePatch(inc)) == inc
    ensures Merge(old_, IncidentPatch(old_.id, None, None, None, None, None, None, None, None, None)) == old_
  {
  }

  /** `ids.filter((id) => id !== target)`. */
  function RemoveId(ids: seq<Id>, target: Id): (r: seq<Id>)
    ensures forall x :: x in r <==> x in ids && x != target
    ensures multiset(r) == multiset(ids)[target := 0]
    ensures |r| <= |ids|
    ensures target !in ids ==> r == ids
  {
    if ids == [] then []
    else
      assert ids == [ids[0]] + ids[1..];
      if ids[0] == target then RemoveId(ids[1..], target)
      else [ids[0]] + RemoveId(ids[1..], target)
  }

  /** `incidents.map((incident) => incident._id)`. */
  function IdsOf(incidents: seq<Incident>): (r: seq<Id>)
    ensures |r| == |incidents|
    ensures forall i :: 0 <= i < |r| ==> r[i] == incidents[i].id
  {
    if incidents == [] then [] else [incidents[0].id] + IdsOf(incidents[1..])
  }

  lemma IdsOfSnoc(s: seq<Incident>, x: Incident)
    ensures IdsOf(s + [x]) == IdsOf(s) + [x.id]
  {
    assert forall i :: 0 <= i < |s| ==> (s + [x])[i] == s[i];
  }

  /** The map `forEach` builds: each incident stored under its id, a later one replacing an earlier one. */
  function Normalize(incidents: seq<Incident>): (m: map<Id, Incident>)
    ensures forall id :: id in m <==> id in IdsOf(incidents)
  {
    if incidents == [] then map[]
    else
      var init := incidents[..|incidents| - 1];
      var last := incidents[|incidents| - 1];
      assert incidents == init + [last];
      IdsOfSnoc(init, last);
      Normalize(init)[last.id := last]
  }

  /** Every entry of the normalized map is stored under its own id and comes from the payload. */
  lemma {:induction false} NormalizeEntries(incidents: seq<Incident>)
    ensures forall id :: id in Normalize(incidents) ==>
      Normalize(incidents)[id].id == id && Normalize(incidents)[id] in incidents
  {
    if incidents != [] {
      var init := incidents[..|incidents| - 1];
      NormalizeEntries(init);
      assert forall x :: x in init ==> x in incidents;
    }
  }

  /** With distinct ids, the normalized map sends each payload id to its own incident. */
  lemma NormalizeDistinct(incidents: seq<Incident>)
    requires DistinctIds(incidents)
    ensures forall i :: 0 <= i < |incidents| ==>
      incidents[i].id in Normalize(incidents) && Normalize(incidents)[incidents[i].id] == incidents[i]
  {
    forall i | 0 <= i < |incidents|
      ensures incidents[i].id in Normalize(incidents) && Normalize(incidents)[incidents[i].id] == incidents[i]
    {
      NormalizeAt(incidents, i);
    }
  }

  lemma {:induction false} NormalizeAt(incidents: seq<Incident>, i: nat)
    requires DistinctIds(incidents) && i < |incidents|
    ensures incidents[i].id in Normalize(incidents) && Normalize(incidents)[incidents[i].id] == incidents[i]
  {
    var n := |incidents| - 1;
    if i < n {
      var init := incidents[..n];
      assert DistinctIds(init) by {
        forall a, b | 0 <= a < b < |init| ensures init[a].id != init[b].id {
          assert init[a] == incidents[a] && init[b] == incidents[b];
        }
      }
      NormalizeAt(init, i);
      assert init[i] == incidents[i];
      assert incidents[i].id != incidents[n].id;
      NormalizeKeepsEarlier(incidents, i);
    }
  }

  /** Storing the last incident leaves an earlier one with a different id where it was. */
  lemma NormalizeKeepsEarlier(incidents: seq<Incident>, i: nat)
    requires i < |incidents| - 1
    requires incidents[i].id != incidents[|incidents| - 1].id
    requires incidents[i].id in Normalize(incidents[..|incidents| - 1])
    ensures Normalize(incidents)[incidents[i].id] == Normalize(incidents[..|incidents| - 1])[incidents[i].id]
  {
  }

  // ------------------------------------------------------------ reducers

  /** `socketNewIncident`: an id already cached is ignored; a new one is stored and listed first. */
  function SocketNew(s: CacheState, inc: Incident): (r: CacheState)
    ensures inc.id in s.items ==> r == s
    ensures inc.id !in s.items ==>
      && r.items == s.items[inc.id := inc] && r.ids == [inc.id] + s.ids
      && r == s.(items := r.items, ids := r.ids)
    ensures r.items.Keys == s.items.Keys + {inc.id}
  {
    if inc.id in s.items then s
    else s.(items := s.items[inc.id := inc], ids := [inc.id] + s.ids)
  }

  /**
   * `socketUpdateIncident`: merges into the cached entry only when there is
   * one, and into the current incident only when the ids match; no key is
   * ever added.
   */
  function SocketUpdate(s: CacheState, p: IncidentPatch): (r: CacheState)
    ensures r.items.Keys == s.items.Keys
    ensures forall id :: id in r.items && id != p.id ==> r.items[id] == s.items[id]
    ensures p.id in s.items ==> r.items[p.id] == Merge(s.items[p.id], p)
    ensures r.current == if s.current.Some? && s.current.value.id == p.id
                         then Some(Merge(s.current.value, p)) else s.current
    ensures r == s.(items := r.items, current := r.current)
  {
    var items := if p.id in s.items then s.items[p.id := Merge(s.items[p.id], p)] else s.items;
    var current := if s.current.Some? && s.current.value.id == p.id
                   then Some(Merge(s.current.value, p)) else s.current;
    s.(items := items, current := current)
  }

  /**
   * `socketDeleteIncident` and `deleteIncident.fulfilled`: the key leaves
   * the map, every occurrence leaves the list, and a matching current
   * incident is cleared.
   */
  function RemoveIncident(s: CacheState, id: Id): (r: CacheState)
    ensures r.items.Keys == s.items.Keys - {id}
    ensures forall k :: k in r.items ==> r.items[k] == s.items[k]
    ensures id !in r.ids && forall x :: x in s.ids && x != id ==> x in r.ids
    ensures r.current == if s.current.Some? && s.current.value.id == id then None else s.current
    ensures r.ids == RemoveId(s.ids, id)
    ensures IdsInItems(s) && id !in s.items ==> r.items == s.items && r.ids == s.ids
    ensures r == s.(items := r.items, ids := r.ids, current := r.current)
  {
    var current := if s.current.Some? && s.current.value.id == id then None else s.current;
    s.(items := s.items - {id}, ids := RemoveId(s.ids, id), current := current)
  }

  /** `setFilters`: the keys in the payload overwrite, the others keep their value. */
  function SetFiltersIn(s: CacheState, p: FilterPatch): (r: CacheState)
    ensures r.filters.category == (if p.category.Some? then p.category.value else s.filters.category)
    ensures r.filters.status == (if p.status.Some? then p.status.value else s.filters.status)
    ensures r.filters.severity == (if p.severity.Some? then p.severity.value else s.filters.severity)
    ensures r == s.(filters := r.filters)
  {
    s.(filters := Filters(p.category.GetOr(s.filters.category),
                          p.status.GetOr(s.filters.status),
                          p.severity.GetOr(s.filters.severity)))
  }

  /** Every handled `pending` case: a request is in flight and the last error is cleared. */
  function StartRequest(s: CacheState): (r: CacheState)
    ensures r.loading && r.error.None? && SameData(s, r)
  {
    s.(loading := true, error := None)
  }

  /** Every handled `rejected` case: the request is over and its message is the error. */
  function FailRequest(s: CacheState, message: string): (r: CacheState)
    ensures !r.loading && r.error == Some(message) && SameData(s, r)
  {
    s.(loading := false, error := Some(message))
  }

  /**
   * `fetchIncidents.fulfilled`: the cache is replaced wholesale by the
   * payload, ids in payload order; `error` is left as it was.
   */
  function ReplaceAll(s: CacheState, incidents: seq<Incident>, now: int): (r: CacheState)
    ensures !r.loading && r.lastUpdate == Some(now)
    ensures r.ids == IdsOf(incidents) && r.items == Normalize(incidents)
    ensures r.items.Keys == set id | id in r.ids
    ensures r == s.(loading := false, items := r.items, ids := r.ids, lastUpdate := r.lastUpdate)
  {
    s.(loading := false, items := Normalize(incidents), ids := IdsOf(incidents), lastUpdate := Some(now))
  }

  /** `fetchIncidentById.fulfilled`: the incident becomes current and is cached, but not listed. */
  function StoreFetched(s: CacheState, inc: Incident): (r: CacheState)
    ensures !r.loading && r.current == Some(inc)
    ensures r.items == s.items[inc.id := inc] && r.ids == s.ids
    ensures r == s.(loading := false, current := r.current, items := r.items)
  {
    s.(loading := false, current := Some(inc), items := s.items[inc.id := inc])
  }

  /** `createIncident.fulfilled`: the incident is cached and its id prepended, whether or not it was listed. */
  function StoreCreated(s: CacheState, inc: Incident): (r: CacheState)
    ensures !r.loading && r.items == s.items[inc.id := inc]
    ensures |r.ids| == |s.ids| + 1 && r.ids[0] == inc.id && r.ids[1..] == s.ids
    ensures r == s.(loading := false, items := r.items, ids := r.ids)
  {
    s.(loading := false, items := s.items[inc.id := inc], ids := [inc.id] + s.ids)
  }

  /** `updateIncidentStatus.fulfilled`: the entry is replaced (or added), and so is a matching current incident. */
  function StoreUpdated(s: CacheState, inc: Incident): (r: CacheState)
    ensures !r.loading && r.items == s.items[inc.id := inc] && r.ids == s.ids
    ensures r.current == if s.current.Some? && s.current.value.id == inc.id then Some(inc) else s.current
    ensures r == s.(loading := false, items := r.items, current := r.current)
  {
    var current := if s.current.Some? && s.current.value.id == inc.id then Some(inc) else s.current;
    s.(loading := false, items := s.items[inc.id := inc], current := current)
  }

  /** The slice's root reducer. Actions with no registered case leave the state as it is. */
  function Reduce(s: CacheState, a: Action): CacheState {
    match a
    case SocketNewIncident(inc) => SocketNew(s, inc)
    case SocketUpdateIncident(p) => SocketUpdate(s, p)
    case SocketDeleteIncident(id) => RemoveIncident(s, id)
    case SetFilters(p) => SetFiltersIn(s, p)
    case ClearCurrentIncident => s.(current := None)
    case ClearError => s.(error := None)
    case Pending(t) => if t == Delete || t == FetchNearby then s else StartRequest(s)
    case Rejected(t, message) => if t == Delete || t == FetchNearby then s else FailRequest(s, message)
    case FetchIncidentsFulfilled(incidents, now) => ReplaceAll(s, incidents, now)
    case FetchIncidentByIdFulfilled(inc) => StoreFetched(s, inc)
    case CreateIncidentFulfilled(inc) => StoreCreated(s, inc)
    case UpdateIncidentStatusFulfilled(inc) => StoreUpdated(s, inc)
    case DeleteIncidentFulfilled(id) => RemoveIncident(s, id)
    case FetchNearbyIncidentsFulfilled(list) => s.(nearby := list)
  }

  // ------------------------------------------------------------ properties

  /** Every reducer keeps every listed id cached. */
  lemma ReducePreservesIdsInItems(s: CacheState, a: Action)
    requires IdsInItems(s)
    ensures IdsInItems(Reduce(s, a))
  {
    if a.FetchIncidentsFulfilled? {
      var r := Reduce(s, a);
      assert r.items == Normalize(a.incidents) && r.ids == IdsOf(a.incidents);
    }
  }

  /** Applying a socket `incident:new` twice is the same as applying it once. */
  lemma SocketNewIdempotent(s: CacheState, inc: Incident)
    ensures SocketNew(SocketNew(s, inc), inc) == SocketNew(s, inc)
  {
  }

  /** The converse of the invariant does not hold: a fetched-by-id incident is cached but unlisted. */
  lemma FetchByIdLeavesItemUnlisted(inc: Incident)
    ensures var r := Reduce(INITIAL_STATE, FetchIncidentByIdFulfilled(inc));
            inc.id in r.items && inc.id !in r.ids
  {
  }

  /**
   * The socket event of a create can arrive before the HTTP reply (the
   * server emits before it responds); the reply then lists the id a second
   * time while the map still holds a single entry.
   */
  lemma SocketThenCreateListsTwice(s: CacheState, inc: Incident)
    requires IdsInItems(s) && inc.id !in s.items
    ensures var r := Reduce(Reduce(s, SocketNewIncident(inc)), CreateIncidentFulfilled(inc));
            && r.ids == [inc.id, inc.id] + s.ids
            && r.items.Keys == s.items.Keys + {inc.id}
            && inc.id !in s.ids
  {
  }

  /** Deleting, by socket or by request, twice is the same as deleting once. */
  lemma RemoveIdempotent(s: CacheState, id: Id)
    ensures RemoveIncident(RemoveIncident(s, id), id) == RemoveIncident(s, id)
  {
    var once := RemoveIncident(s, id);
    assert RemoveId(once.ids, id) == once.ids;
    assert once.items - {id} == once.items;
  }

  // ------------------------------------------------------------ the store

  /** The slice state, held in fields that the reducers update in place. */
  class IncidentStore {
    var items: map<Id, Incident>
    var ids: seq<Id>
    var currentIncident: Option<Incident>
    var nearbyIncidents: seq<Incident>
    var filters: Filters
    var loading: bool
    var error: Option<string>
    var lastUpdate: Option<int>

    function State(): CacheState
      reads this
    {
      CacheState(items, ids, currentIncident, nearbyIncidents, filters, loading, error, lastUpdate)
    }

    constructor ()
      ensures State() == INITIAL_STATE
    {
      items, ids, currentIncident, nearbyIncidents := map[], [], None, [];
      filters, loading, error, lastUpdate := INITIAL_FILTERS, false, None, None;
    }

    method SocketNewIncident(inc: Incident)
      modifies this
      ensures State() == SocketNew(old(State()), inc)
    {
      if inc.id !in items {
        items := items[inc.id := inc];
        ids := [inc.id] + ids;
      }
    }

    method SocketUpdateIncident(p: IncidentPatch)
      modifies this
      ensures State() == SocketUpdate(old(State()), p)
    {
      if p.id in items {
        items := items[p.id := Merge(items[p.id], p)];
      }
      if currentIncident.Some? && currentIncident.value.id == p.id {
        currentIncident := Some(Merge(currentIncident.value, p));
      }
    }

    /** Shared by `socketDeleteIncident` and `deleteIncident.fulfilled`. */
    method DeleteIncident(id: Id)
      modifies this
      ensures State() == RemoveIncident(old(State()), id)
    {
      items := items - {id};
      ids := RemoveId(ids, id);
      if currentIncident.Some? && currentIncident.value.id == id {
        currentIncident := None;
      }
    }

    method SetFilters(p: FilterPatch)
      modifies this
      ensures State() == SetFiltersIn(old(State()), p)
    {
      filters := Filters(p.category.GetOr(filters.category),
                         p.status.GetOr(filters.status),
                         p.severity.GetOr(filters.severity));
    }

    method ClearCurrentIncident()
      modifies this
      ensures State() == old(State()).(current := None)
    {
      currentIncident := None;
    }

    method ClearError()
      modifies this
      ensures State() == old(State()).(error := None)
    {
      error := None;
    }

    method RequestPending()
      modifies this
      ensures State() == StartRequest(old(State()))
    {
      loading := true;
      error := None;
    }

    method RequestRejected(message: string)
      modifies this
      ensures State() == FailRequest(old(State()), message)
    {
      loading := false;
      error := Some(message);
    }

    /** `fetchIncidents.fulfilled`, filling the normalized map one incident at a time. */
    method FetchIncidentsFulfilled(incidents: seq<Incident>, now: int)
      modifies this
      ensures State() == ReplaceAll(old(State()), incidents, now)
    {
      loading := false;
      var normalized: map<Id, Incident> := map[];
      var i := 0;
      while i < |incidents|
        invariant 0 <= i <= |incidents|
        invariant normalized == Normalize(incidents[..i])
      {
        assert incidents[..i + 1][..i] == incidents[..i];
        normalized := normalized[incidents[i].id := incidents[i]];
        i := i + 1;
      }
      assert incidents[..i] == incidents;
      items := normalized;
      ids := IdsOf(incidents);
      lastUpdate := Some(now);
    }

    method FetchIncidentByIdFulfilled(inc: Incident)
      modifies this
      ensures State() == StoreFetched(old(State()), inc)
    {
      loading := false;
      currentIncident := Some(inc);
      items := items[inc.id := inc];
    }

    method CreateIncidentFulfilled(inc: Incident)
      modifies this
      ensures State() == StoreCreated(old(State()), inc)
    {
      loading := false;
      items := items[inc.id := inc];
      ids := [inc.id] + ids;
    }

    method UpdateIncidentStatusFulfilled(inc: Incident)
      modifies this
      ensures State() == StoreUpdated(old(State()), inc)
    {
      loading := false;
      items := items[inc.id := inc];
      if currentIncident.Some? && currentIncident.value.id == inc.id {
        currentIncident := Some(inc);
      }
    }

    method FetchNearbyIncidentsFulfilled(list: seq<Incident>)
      modifies this
      ensures State() == old(State()).(nearby := list)
    {
      nearbyIncidents := list;
    }

    /** `dispatch(action)`: the case the slice registers for the action, if any. */
    method Dispatch(a: Action)
      modifies this
      ensures State() == Reduce(old(State()), a)
      ensures IdsInItems(old(State())) ==> IdsInItems(State())
    {
      if IdsInItems(State()) {
        ReducePreservesIdsInItems(State(), a);
      }
      match a
      case SocketNewIncident(inc) => SocketNewIncident(inc);
      case SocketUpdateIncident(p) => SocketUpdateIncident(p);
      case SocketDeleteIncident(id) => DeleteIncident(id);
      case SetFilters(p) => SetFilters(p);
      case ClearCurrentIncident => ClearCurrentIncident();
      case ClearError => ClearError();
      case Pending(t) =>
        if t != Delete && t != FetchNearby {
          RequestPending();
        }
      case Rejected(t, message) =>
        if t != Delete && t != FetchNearby {
          RequestRejected(message);
        }
      case FetchIncidentsFulfilled(incidents, now) => FetchIncidentsFulfilled(incidents, now);
      case FetchIncidentByIdFulfilled(inc) => FetchIncidentByIdFulfilled(inc);
      case CreateIncidentFulfilled(inc) => CreateIncidentFulfilled(inc);
      case UpdateIncidentStatusFulfilled(inc) => UpdateIncidentStatusFulfilled(inc);
      case DeleteIncidentFulfilled(id) => DeleteIncident(id);
      case FetchNearbyIncidentsFulfilled(list) => FetchNearbyIncidentsFulfilled(list);
    }
  }
}
