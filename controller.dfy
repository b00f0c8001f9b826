/**
 * The server's incident controller. The Mongoose collection is an abstract
 * map from id to document; each handler is a method that validates its
 * request, updates the map, records the socket event it emits, and returns
 * the HTTP status with the JSON body. An error passed to `next(error)` is a
 * `Forward` response: the error middleware that turns it into a reply is not
 * part of this model.
 */
module Controller {
  import opened Wrappers
  import opened JsValues
  import opened Schema
  import Fanout

  const MISSING_FIELDS: string := "Missing required fields"
  const NOT_FOUND: string := "Incident not found"
  const INVALID_STATUS: string := "Invalid status. Must be: pending, verified, or resolved"
  const COORDINATES_REQUIRED: string := "Longitude and latitude are required"
  const DELETED: string := "Incident deleted successfully"

  /** The JSON bodies the handlers send. */
  datatype Body =
    | Message(message: string)                   // { success: false, message }
    | Data(data: Incident)                       // { success: true, data }
    | Listing(count: nat, incidents: seq<Incident>)   // { success: true, count, data }
    | Removed(message: string, data: Incident)   // { success: true, message, data }

  /**
   * Errors the store raises: schema validation and a clash of `_id` on save,
   * and a query value that Mongoose's Number cast rejects on `find`.
   */
  datatype StoreError = ValidationFailed | DuplicateKey | CastFailed

  datatype Response = Reply(code: int, body: Body) | Forward(error: StoreError)

  datatype LocationBody = LocationBody(coordinates: Option<seq<real>>)

  /** The fields `createIncident` reads from `req.body`; `None` is an absent field. */
  datatype CreateBody = CreateBody(
    title: Option<string>,
    description: Option<string>,
    category: Option<string>,
    severity: Option<int>,
    location: Option<LocationBody>,
    media: Option<seq<string>>,
    status: Option<string>)

  /** The query string of `GET /incidents`; `None` is an absent parameter. */
  datatype ListQuery = ListQuery(
    category: Option<string>,
    status: Option<string>,
    severity: Option<string>,
    minSeverity: Option<string>,
    maxSeverity: Option<string>)

  /** The value of `query.severity`: absent, a number, or an object holding `$gte` and/or `$lte`. */
  datatype SeverityCond =
    | AnySeverity
    | Exact(n: Num)
    | AtLeast(lo: Num)
    | AtMost(hi: Num)
    | Between(lo: Num, hi: Num)

  /** The Mongo filter `getIncidents` builds. */
  datatype Query = Query(category: Option<string>, status: Option<string>, severity: SeverityCond)

  /** The arguments `getNearbyIncidents` passes on to the geo lookup, or its 400 reply. */
  datatype Radius = GivenRadius(text: string) | DefaultRadius
  datatype NearbyOutcome =
    | NearbyRejected(response: Response)
    | GeoLookup(lng: string, lat: string, radius: Radius)

  /** `req.app.locals.socketHandlers` may be unset, in which case nothing is emitted. */
  function Announce(attached: bool, e: Fanout.Event): seq<Fanout.Event> {
    if attached then [e] else []
  }

  // ---------------------------------------------------------------- create

  /** A falsy severity: absent, or the number 0. */
  predicate FalsySeverity(v: Option<int>) {
    v.None? || v.value == 0
  }

  /**
   * The guard of `createIncident`: title, description, category, severity,
   * location and location.coordinates must all be truthy (an array, even an
   * empty one, is truthy).
   */
  predicate MissingRequired(b: CreateBody) {
    || !Truthy(b.title)
    || !Truthy(b.description)
    || !Truthy(b.category)
    || FalsySeverity(b.severity)
    || b.location.None?
    || b.location.value.coordinates.None?
  }

  /** The document handed to `new Incident(...)`: status forced to 'pending', media defaulting to []. */
  function DraftOf(b: CreateBody): (d: Draft)
    requires !MissingRequired(b)
    ensures d.status == Some("pending")
    ensures d.coordinates == b.location.value.coordinates.value
    ensures d.media == b.media.GetOr([])
  {
    Draft(b.title.value, b.description.value, b.category.value, b.severity.value,
          Some("pending"), b.location.value.coordinates.value, b.media.GetOr([]))
  }

  /** The submitted status never reaches the store: a valid create is always `pending`. */
  lemma CreateIgnoresSubmittedStatus(b: CreateBody, st: Option<string>, id: Id, now: int)
    requires !MissingRequired(b)
    ensures Construct(DraftOf(b.(status := st)), id, now) == Construct(DraftOf(b), id, now)
    ensures Construct(DraftOf(b), id, now).status == "pending"
  {
  }

  // ---------------------------------------------------------------- list

  /** `{ ...query.severity, $gte: lo }`: spreading a number or undefined adds no keys. */
  function WithLowerBound(c: SeverityCond, lo: Num): SeverityCond {
    match c
    case AtMost(hi) => Between(lo, hi)
    case Between(_, hi) => Between(lo, hi)
    case _ => AtLeast(lo)
  }

  /** `{ ...query.severity, $lte: hi }`. */
  function WithUpperBound(c: SeverityCond, hi: Num): SeverityCond {
    match c
    case AtLeast(lo) => Between(lo, hi)
    case Between(lo, _) => Between(lo, hi)
    case _ => AtMost(hi)
  }

  /** `bound <= v` for a parsed bound; a NaN bound admits no severity. */
  predicate NotBelow(v: int, bound: Num) {
    bound.Int? && bound.value <= v
  }

  predicate NotAbove(v: int, bound: Num) {
    bound.Int? && v <= bound.value
  }

  predicate SeverityMatches(c: SeverityCond, v: int) {
    match c
    case AnySeverity => true
    case Exact(n) => n == Int(v)
    case AtLeast(lo) => NotBelow(v, lo)
    case AtMost(hi) => NotAbove(v, hi)
    case Between(lo, hi) => NotBelow(v, lo) && NotAbove(v, hi)
  }

  /** A NaN inside the severity condition, which Mongoose refuses to cast to a Number. */
  predicate HasNaN(c: SeverityCond) {
    match c
    case AnySeverity => false
    case Exact(n) => n.NaN?
    case AtLeast(lo) => lo.NaN?
    case AtMost(hi) => hi.NaN?
    case Between(lo, hi) => lo.NaN? || hi.NaN?
  }

  /**
   * When a list request fails the cast, stated on the request itself: a truthy
   * bound that `parseInt` reads as NaN, or, with no bound given, such a
   * truthy `severity`. An unparsable `severity` beside a bound is discarded
   * and does no harm.
   */
  predicate CastFails(q: ListQuery) {
    if Truthy(q.minSeverity) || Truthy(q.maxSeverity) then
      || (Truthy(q.minSeverity) && ParseInt(q.minSeverity.value).NaN?)
      || (Truthy(q.maxSeverity) && ParseInt(q.maxSeverity.value).NaN?)
    else
      Truthy(q.severity) && ParseInt(q.severity.value).NaN?
  }

  /** What the store's `find(query)` selects. */
  predicate Matches(q: Query, inc: Incident) {
    && (q.category.Some? ==> inc.category == q.category.value)
    && (q.status.Some? ==> inc.status == q.status.value)
    && SeverityMatches(q.severity, inc.severity)
  }

  /**
   * Which documents a list request selects, stated on the request itself:
   * each truthy category and status must match exactly; when either bound is
   * given the bounds alone decide severity, otherwise a truthy `severity`
   * must equal the severity.
   */
  predicate ListedBy(q: ListQuery, inc: Incident) {
    && (Truthy(q.category) ==> inc.category == q.category.value)
    && (Truthy(q.status) ==> inc.status == q.status.value)
    && if Truthy(q.minSeverity) || Truthy(q.maxSeverity) then
         && (Truthy(q.minSeverity) ==> NotBelow(inc.severity, ParseInt(q.minSeverity.value)))
         && (Truthy(q.maxSeverity) ==> NotAbove(inc.severity, ParseInt(q.maxSeverity.value)))
       else
         Truthy(q.severity) ==> ParseInt(q.severity.value) == Int(inc.severity)
  }

  /** The step-by-step construction of `query` in `getIncidents`. */
  method BuildQuery(q: ListQuery) returns (query: Query)
    ensures query.category == (if Truthy(q.category) then q.category else None)
    ensures query.status == (if Truthy(q.status) then q.status else None)
    ensures !Truthy(q.minSeverity) && !Truthy(q.maxSeverity) ==>
      query.severity == (if Truthy(q.severity) then Exact(ParseInt(q.severity.value)) else AnySeverity)
    ensures Truthy(q.minSeverity) && !Truthy(q.maxSeverity) ==>
      query.severity == AtLeast(ParseInt(q.minSeverity.value))
    ensures !Truthy(q.minSeverity) && Truthy(q.maxSeverity) ==>
      query.severity == AtMost(ParseInt(q.maxSeverity.value))
    ensures Truthy(q.minSeverity) && Truthy(q.maxSeverity) ==>
      query.severity == Between(ParseInt(q.minSeverity.value), ParseInt(q.maxSeverity.value))
    ensures forall inc :: Matches(query, inc) <==> ListedBy(q, inc)
    ensures HasNaN(query.severity) <==> CastFails(q)
  {
    query := Query(None, None, AnySeverity);
    if Truthy(q.category) {
      query := query.(category := q.category);
    }
    if Truthy(q.status) {
      query := query.(status := q.status);
    }
    if Truthy(q.severity) {
      query := query.(severity := Exact(ParseInt(q.severity.value)));
    }
    if Truthy(q.minSeverity) {
      query := query.(severity := WithLowerBound(query.severity, ParseInt(q.minSeverity.value)));
    }
    if Truthy(q.maxSeverity) {
      query := query.(severity := WithUpperBound(query.severity, ParseInt(q.maxSeverity.value)));
    }
  }

  /** The order of `.sort({ createdAt: -1 })`. */
  ghost predicate NewestFirst(s: seq<Incident>) {
    forall i, j :: 0 <= i < j < |s| ==> s[i].createdAt >= s[j].createdAt
  }

  /** Every document is stored under its own id. */
  ghost predicate KeyedById(store: map<Id, Incident>) {
    forall k :: k in store ==> store[k].id == k
  }

  /** The collection's invariant: keyed by id, and every stored document passed validation. */
  ghost predicate WellFormed(store: map<Id, Incident>) {
    forall k :: k in store ==> store[k].id == k && Schema.Valid(store[k])
  }

  /** Puts `x` into a newest-first sequence, before every element not newer than it. */
  function InsertNewestFirst(x: Incident, s: seq<Incident>): (r: seq<Incident>)
    ensures multiset(r) == multiset(s) + multiset{x}
  {
    if s == [] || x.createdAt >= s[0].createdAt then [x] + s
    else
      assert s == [s[0]] + s[1..];
      [s[0]] + InsertNewestFirst(x, s[1..])
  }

  lemma InsertMembers(x: Incident, s: seq<Incident>)
    ensures forall y :: y in InsertNewestFirst(x, s) <==> y == x || y in s
  {
    var r := InsertNewestFirst(x, s);
    forall y ensures y in r <==> y == x || y in s {
      assert y in r <==> multiset(r)[y] > 0;
      assert y in s <==> multiset(s)[y] > 0;
    }
  }

  /** Insertion keeps a newest-first sequence newest first. */
  lemma {:induction false} InsertKeepsNewestFirst(x: Incident, s: seq<Incident>)
    requires NewestFirst(s)
    ensures NewestFirst(InsertNewestFirst(x, s))
  {
    if s != [] && x.createdAt < s[0].createdAt {
      var rest := InsertNewestFirst(x, s[1..]);
      InsertKeepsNewestFirst(x, s[1..]);
      InsertMembers(x, s[1..]);
      var r := [s[0]] + rest;
      forall i, j | 0 <= i < j < |r| ensures r[i].createdAt >= r[j].createdAt {
        if i == 0 {
          assert r[j] in rest;
          if r[j] != x {
            var k :| 0 <= k < |s[1..]| && s[1..][k] == r[j];
            assert s[k + 1] == r[j];
          }
        } else {
          assert r[i] == rest[i - 1] && r[j] == rest[j - 1];
        }
      }
    }
  }

  /** Inserting a document whose id is new keeps the ids distinct. */
  lemma {:induction false} InsertKeepsDistinctIds(x: Incident, s: seq<Incident>)
    requires DistinctIds(s)
    requires forall y :: y in s ==> y.id != x.id
    ensures DistinctIds(InsertNewestFirst(x, s))
  {
    if s == [] || x.createdAt >= s[0].createdAt {
      var r := [x] + s;
      forall i, j | 0 <= i < j < |r| ensures r[i].id != r[j].id {
        if i == 0 {
          assert r[j] in s;
        } else {
          assert r[i] == s[i - 1] && r[j] == s[j - 1];
        }
      }
    } else {
      var rest := InsertNewestFirst(x, s[1..]);
      assert forall y :: y in s[1..] ==> y in s;
      InsertKeepsDistinctIds(x, s[1..]);
      InsertMembers(x, s[1..]);
      var r := [s[0]] + rest;
      forall i, j | 0 <= i < j < |r| ensures r[i].id != r[j].id {
        if i == 0 {
          assert r[j] in rest;
          if r[j] != x {
            var k :| 0 <= k < |s[1..]| && s[1..][k] == r[j];
            assert s[k + 1] == r[j];
          }
        } else {
          assert r[i] == rest[i - 1] && r[j] == rest[j - 1];
        }
      }
    }
  }

  /** `Incident.find(query).sort({ createdAt: -1 })` over the collection. */
  method Find(store: map<Id, Incident>, query: Query) returns (r: seq<Incident>)
    requires KeyedById(store)
    ensures forall x :: x in r <==> x.id in store && store[x.id] == x && Matches(query, x)
    ensures NewestFirst(r)
    ensures DistinctIds(r)
  {
    r := [];
    var rest := store.Keys;
    while rest != {}
      invariant rest <= store.Keys
      invariant forall x :: x in r ==> x.id in store && store[x.id] == x && x.id !in rest && Matches(query, x)
      invariant forall k :: k in store && k !in rest && Matches(query, store[k]) ==> store[k] in r
      invariant NewestFirst(r)
      invariant DistinctIds(r)
      decreases rest
    {
      var k :| k in rest;
      if Matches(query, store[k]) {
        InsertKeepsNewestFirst(store[k], r);
        InsertKeepsDistinctIds(store[k], r);
        InsertMembers(store[k], r);
        r := InsertNewestFirst(store[k], r);
      }
      rest := rest - {k};
    }
  }

  // ---------------------------------------------------------------- nearby

  /**
   * The checks of `getNearbyIncidents` before the geo lookup: both
   * coordinates are required (400 otherwise) and the radius defaults to 5.
   */
  function NearbyRequest(lng: Option<string>, lat: Option<string>, radius: Option<string>): (r: NearbyOutcome)
    ensures r.NearbyRejected? <==> !Truthy(lng) || !Truthy(lat)
    ensures r.NearbyRejected? ==> r.response == Reply(400, Message(COORDINATES_REQUIRED))
    ensures r.GeoLookup? ==> r.lng == lng.value && r.lat == lat.value
    ensures r.GeoLookup? ==> r.radius == (if radius.Some? then GivenRadius(radius.value) else DefaultRadius)
  {
    if !Truthy(lng) || !Truthy(lat) then NearbyRejected(Reply(400, Message(COORDINATES_REQUIRED)))
    else GeoLookup(lng.value, lat.value, if radius.Some? then GivenRadius(radius.value) else DefaultRadius)
  }

  // ---------------------------------------------------------------- handlers

  class IncidentServer {
    /** The incident collection. */
    var store: map<Id, Incident>
    /** Whether socket handlers are installed on `app.locals`. */
    var socketsAttached: bool
    /** Every event handed to the socket handlers, oldest first. */
    var emitted: seq<Fanout.Event>

    ghost predicate Valid()
      reads this
    {
      WellFormed(store)
    }

    constructor (attached: bool)
      ensures Valid()
      ensures store == map[] && emitted == [] && socketsAttached == attached
    {
      store := map[];
      socketsAttached := attached;
      emitted := [];
    }

    /**
     * `POST /incidents`. `newId` is the ObjectId the driver assigns and `now`
     * the save instant.
     */
    method CreateIncident(body: CreateBody, newId: Id, now: int) returns (res: Response)
      requires Valid()
      modifies this`store, this`emitted
      ensures Valid()
      ensures MissingRequired(body) ==>
        res == Reply(400, Message(MISSING_FIELDS)) && store == old(store) && emitted == old(emitted)
      ensures !MissingRequired(body) ==>
        var doc := Construct(DraftOf(body), newId, now);
        if !Schema.Valid(doc) then
          res == Forward(ValidationFailed) && store == old(store) && emitted == old(emitted)
        else if newId in old(store) then
          res == Forward(DuplicateKey) && store == old(store) && emitted == old(emitted)
        else
          && res == Reply(201, Data(doc))
          && store == old(store)[newId := doc]
          && emitted == old(emitted) + Announce(socketsAttached, Fanout.NewIncidentEvent(doc))
      ensures res.Reply? && res.code == 201 ==>
        && res.body.Data?
        && res.body.data.status == "pending"
        && res.body.data.location.coordinates == body.location.value.coordinates.value
        && res.body.data.media == body.media.GetOr([])
    {
      if MissingRequired(body) {
        return Reply(400, Message(MISSING_FIELDS));
      }
      var doc := Construct(DraftOf(body), newId, now);
      if !Schema.Valid(doc) {
        return Forward(ValidationFailed);
      }
      if newId in store {
        return Forward(DuplicateKey);
      }
      store := store[newId := doc];
      if socketsAttached {
        emitted := emitted + [Fanout.NewIncidentEvent(doc)];
      }
      res := Reply(201, Data(doc));
    }

    /**
     * `GET /incidents`: every selected document, newest first, with its
     * count; a severity value that fails the cast is forwarded as an error.
     */
    method GetIncidents(q: ListQuery) returns (res: Response)
      requires Valid()
      ensures CastFails(q) <==> res == Forward(CastFailed)
      ensures !CastFails(q) ==> res.Reply? && res.code == 200 && res.body.Listing?
      ensures !CastFails(q) ==> res.body.count == |res.body.incidents|
      ensures !CastFails(q) ==>
        forall x :: x in res.body.incidents <==> x.id in store && store[x.id] == x && ListedBy(q, x)
      ensures !CastFails(q) ==> NewestFirst(res.body.incidents)
      ensures !CastFails(q) ==> DistinctIds(res.body.incidents)
    {
      var query := BuildQuery(q);
      if HasNaN(query.severity) {
        return Forward(CastFailed);
      }
      var incidents := Find(store, query);
      res := Reply(200, Listing(|incidents|, incidents));
    }

    /** `GET /incidents/:id`. */
    method GetIncidentById(id: Id) returns (res: Response)
      ensures id in store ==> res == Reply(200, Data(store[id]))
      ensures id !in store ==> res == Reply(404, Message(NOT_FOUND))
    {
      if id !in store {
        return Reply(404, Message(NOT_FOUND));
      }
      res := Reply(200, Data(store[id]));
    }

    /**
     * `PATCH /incidents/:id/status`: the status is checked against the three
     * values before the store is touched; the update refreshes `updatedAt`.
     */
    method UpdateIncidentStatus(id: Id, status: Option<string>, now: int) returns (res: Response)
      requires Valid()
      modifies this`store, this`emitted
      ensures Valid()
      ensures status.None? || !ValidStatus(status.value) ==>
        res == Reply(400, Message(INVALID_STATUS)) && store == old(store) && emitted == old(emitted)
      ensures status.Some? && ValidStatus(status.value) && id !in old(store) ==>
        res == Reply(404, Message(NOT_FOUND)) && store == old(store) && emitted == old(emitted)
      ensures status.Some? && ValidStatus(status.value) && id in old(store) ==>
        var doc := old(store)[id].(status := status.value, updatedAt := now);
        && res == Reply(200, Data(doc))
        && store == old(store)[id := doc]
        && emitted == old(emitted) + Announce(socketsAttached, Fanout.UpdatedIncidentEvent(doc))
    {
      if status.None? || !ValidStatus(status.value) {
        return Reply(400, Message(INVALID_STATUS));
      }
      if id !in store {
        return Reply(404, Message(NOT_FOUND));
      }
      var doc := store[id].(status := status.value, updatedAt := now);
      store := store[id := doc];
      if socketsAttached {
        emitted := emitted + [Fanout.UpdatedIncidentEvent(doc)];
      }
      res := Reply(200, Data(doc));
    }

    /** `DELETE /incidents/:id`: a hard removal; the event carries only the request id. */
    method DeleteIncident(id: Id) returns (res: Response)
      requires Valid()
      modifies this`store, this`emitted
      ensures Valid()
      ensures id !in old(store) ==>
        res == Reply(404, Message(NOT_FOUND)) && store == old(store) && emitted == old(emitted)
      ensures id in old(store) ==>
        && res == Reply(200, Removed(DELETED, old(store)[id]))
        && store == old(store) - {id}
        && emitted == old(emitted) + Announce(socketsAttached, Fanout.DeletedIncidentEvent(id))
    {
      if id !in store {
        return Reply(404, Message(NOT_FOUND));
      }
      var doc := store[id];
      store := store - {id};
      if socketsAttached {
        emitted := emitted + [Fanout.DeletedIncidentEvent(id)];
      }
      res := Reply(200, Removed(DELETED, doc));
    }

    /**
     * A deletion followed by a lookup of the same id: after a successful
     * delete the lookup is 404, and a failed delete changes nothing.
     */
    method DeleteThenGet(id: Id) returns (deleted: Response, fetched: Response)
      requires Valid()
      modifies this`store, this`emitted
      ensures Valid()
      ensures fetched == Reply(404, Message(NOT_FOUND))
      ensures deleted.Reply? && deleted.code == 404 ==> store == old(store) && emitted == old(emitted)
      ensures deleted.Reply? && deleted.code == 200 ==> |emitted| <= |old(emitted)| + 1
    {
      deleted := DeleteIncident(id);
      fetched := GetIncidentById(id);
    }
  }
}
