/**
 * The client's REST calls, as the requests they put on the wire: the
 * method, the path under the incidents base URL, the query parameters in
 * order and the JSON body. The transport (axios, the base URL, the
 * response) is not modelled; the server's routing of a path is, so that
 * each request can be followed to the controller that receives it.
 */
module IncidentApi {
  import opened Wrappers
  import opened JsValues
  import Schema
  import Controller

  const STATUS_SUFFIX: string := "/status"
  const NEARBY_PATH: string := "/nearby"
  /** The default argument of `getNearbyIncidents`, as its template literal prints it. */
  const DEFAULT_RADIUS_TEXT: string := "5"

  /** The query-string keys the client sends; `Name` is the text on the wire. */
  datatype QueryKey =
    | CategoryKey | StatusKey | SeverityKey | MinSeverityKey | MaxSeverityKey
    | LngKey | LatKey | RadiusKey

  function Name(k: QueryKey): string {
    match k
    case CategoryKey => "category"
    case StatusKey => "status"
    case SeverityKey => "severity"
    case MinSeverityKey => "minSeverity"
    case MaxSeverityKey => "maxSeverity"
    case LngKey => "lng"
    case LatKey => "lat"
    case RadiusKey => "radius"
  }

  /** No two keys share a name on the wire, so reading by name is reading by key. */
  lemma NamesDistinct(a: QueryKey, b: QueryKey)
    requires a != b
    ensures Name(a) != Name(b)
  {
  }

  /** The filter keys in the order `getIncidents` appends them. */
  const FILTER_KEYS: seq<QueryKey> := [CategoryKey, StatusKey, SeverityKey, MinSeverityKey, MaxSeverityKey]

  /** The filters object passed to `getIncidents`; `None` is a missing property. */
  datatype ApiFilters = ApiFilters(
    category: Option<string>,
    status: Option<string>,
    severity: Option<string>,
    minSeverity: Option<string>,
    maxSeverity: Option<string>)

  const NO_FILTERS: ApiFilters := ApiFilters(None, None, None, None, None)

  /** One `URLSearchParams` entry. */
  datatype Param = Param(key: QueryKey, value: string)

  datatype Verb = Get | Post | Patch | Delete

  /** A request body: the submitted draft is opaque here, only `{ status }` is built. */
  datatype RequestBody = NoBody | IncidentData | StatusBody(status: string)

  datatype Request = Request(verb: Verb, path: string, query: seq<Param>, body: RequestBody)

  /** The position of a key in `FILTER_KEYS`, or `|FILTER_KEYS|` for a key that is not a filter. */
  function KeyRank(key: QueryKey): (r: nat)
    ensures r <= |FILTER_KEYS|
    ensures r < |FILTER_KEYS| ==> FILTER_KEYS[r] == key
  {
    match key
    case CategoryKey => 0
    case StatusKey => 1
    case SeverityKey => 2
    case MinSeverityKey => 3
    case MaxSeverityKey => 4
    case _ => 5
  }

  /** `URLSearchParams.get`: the value of the first entry with that key. */
  function Lookup(params: seq<Param>, key: QueryKey): Option<string> {
    if params == [] then None
    else if params[0].key == key then Some(params[0].value)
    else Lookup(params[1..], key)
  }

  /** A key is missing exactly when no entry has it, and a found value belongs to an entry with that key. */
  lemma {:induction false} LookupFinds(params: seq<Param>, key: QueryKey)
    ensures Lookup(params, key).None? <==> forall i :: 0 <= i < |params| ==> params[i].key != key
    ensures Lookup(params, key).Some? ==> Param(key, Lookup(params, key).value) in params
  {
    if params != [] {
      LookupFinds(params[1..], key);
      assert forall i :: 1 <= i < |params| ==> params[i] == params[1..][i - 1];
    }
  }

  /** A present value is sent as it is; a falsy one is not sent at all. */
  function Sent(v: Option<string>): Option<string> {
    if Truthy(v) then v else None
  }

  /** The number of truthy values in `f`, that is the number of parameters sent. */
  function TruthyCount(f: ApiFilters): nat {
    (if Truthy(f.category) then 1 else 0) + (if Truthy(f.status) then 1 else 0)
    + (if Truthy(f.severity) then 1 else 0) + (if Truthy(f.minSeverity) then 1 else 0)
    + (if Truthy(f.maxSeverity) then 1 else 0)
  }

  /**
   * What the server's `req.query` holds for a parameter list: each filter
   * key looked up by name.
   */
  function ReadQuery(params: seq<Param>): Controller.ListQuery {
    Controller.ListQuery(
      Lookup(params, CategoryKey), Lookup(params, StatusKey), Lookup(params, SeverityKey),
      Lookup(params, MinSeverityKey), Lookup(params, MaxSeverityKey))
  }

  /** The filters as the server would see them had they been sent unfiltered. */
  function AsListQuery(f: ApiFilters): Controller.ListQuery {
    Controller.ListQuery(f.category, f.status, f.severity, f.minSeverity, f.maxSeverity)
  }

  /** A list query with its falsy values dropped. */
  function DropFalsy(q: Controller.ListQuery): (r: Controller.ListQuery)
    ensures r.category == Sent(q.category) && r.status == Sent(q.status)
    ensures r.severity == Sent(q.severity)
    ensures r.minSeverity == Sent(q.minSeverity) && r.maxSeverity == Sent(q.maxSeverity)
  {
    Controller.ListQuery(Sent(q.category), Sent(q.status), Sent(q.severity),
      Sent(q.minSeverity), Sent(q.maxSeverity))
  }

  /** The server treats a falsy parameter as an absent one. */
  lemma DropFalsyListsSame(q: Controller.ListQuery, inc: Schema.Incident)
    ensures Controller.ListedBy(DropFalsy(q), inc) <==> Controller.ListedBy(q, inc)
  {
  }

  /** The entry `params.append(key, v)` adds when `v` is truthy, and nothing otherwise. */
  function Entry(key: QueryKey, v: Option<string>): (e: seq<Param>)
    ensures |e| == if Truthy(v) then 1 else 0
    ensures e != [] ==> e[0] == Param(key, v.value)
  {
    if Truthy(v) then [Param(key, v.value)] else []
  }

  /** The parameters `getIncidents` sends: one optional entry per filter key, in the order of `FILTER_KEYS`. */
  function FilterParams(f: ApiFilters): seq<Param> {
    Entry(CategoryKey, f.category) + Entry(StatusKey, f.status) + Entry(SeverityKey, f.severity)
    + Entry(MinSeverityKey, f.minSeverity) + Entry(MaxSeverityKey, f.maxSeverity)
  }

  /**
   * `getIncidents`' successive conditional appends build exactly the
   * declarative parameter list, which sends truthy filters only, in the
   * order of `FILTER_KEYS`, and which the server reads back as exactly the
   * truthy filters.
   */
  method GetIncidentsParams(f: ApiFilters) returns (params: seq<Param>)
    ensures params == FilterParams(f)
    ensures |params| == TruthyCount(f)
    ensures forall i :: 0 <= i < |params| ==> KeyRank(params[i].key) < |FILTER_KEYS| && params[i].value != ""
    ensures forall i, j :: 0 <= i < j < |params| ==> KeyRank(params[i].key) < KeyRank(params[j].key)
    ensures ReadQuery(params) == DropFalsy(AsListQuery(f))
    ensures f == NO_FILTERS ==> params == []
  {
    params := [];
    ghost var sent: seq<Param> := [];
    if Truthy(f.category) {
      params := params + [Param(CategoryKey, f.category.value)];
    }
    sent := sent + Entry(CategoryKey, f.category);
    assert params == sent;
    if Truthy(f.status) {
      params := params + [Param(StatusKey, f.status.value)];
    }
    sent := sent + Entry(StatusKey, f.status);
    assert params == sent;
    if Truthy(f.severity) {
      params := params + [Param(SeverityKey, f.severity.value)];
    }
    sent := sent + Entry(SeverityKey, f.severity);
    assert params == sent;
    if Truthy(f.minSeverity) {
      params := params + [Param(MinSeverityKey, f.minSeverity.value)];
    }
    sent := sent + Entry(MinSeverityKey, f.minSeverity);
    assert params == sent;
    if Truthy(f.maxSeverity) {
      params := params + [Param(MaxSeverityKey, f.maxSeverity.value)];
    }
    sent := sent + Entry(MaxSeverityKey, f.maxSeverity);
    assert params == sent;
    assert [] + Entry(CategoryKey, f.category) == Entry(CategoryKey, f.category);
    FilterParamsCount(f);
    FilterParamsRanked(f);
    FilterParamsRead(f);
  }

  /** Parameters whose keys are filter keys of rank below `rank`, in rank order, with truthy values. */
  ghost predicate RankedBelow(params: seq<Param>, rank: nat) {
    && (forall i :: 0 <= i < |params| ==> KeyRank(params[i].key) < rank && params[i].value != "")
    && (forall i, j :: 0 <= i < j < |params| ==> KeyRank(params[i].key) < KeyRank(params[j].key))
  }

  lemma RankedEntry(params: seq<Param>, key: QueryKey, v: Option<string>)
    requires RankedBelow(params, KeyRank(key))
    ensures RankedBelow(params + Entry(key, v), KeyRank(key) + 1)
  {
  }

  /** The parameter list holds one entry per truthy filter. */
  lemma FilterParamsCount(f: ApiFilters)
    ensures |FilterParams(f)| == TruthyCount(f)
  {
  }

  /** The parameter list holds filter keys only, in key order, with truthy values. */
  lemma FilterParamsRanked(f: ApiFilters)
    ensures RankedBelow(FilterParams(f), |FILTER_KEYS|)
  {
    var e1 := Entry(CategoryKey, f.category);
    var e2 := Entry(StatusKey, f.status);
    var e3 := Entry(SeverityKey, f.severity);
    var e4 := Entry(MinSeverityKey, f.minSeverity);
    assert RankedBelow(e1, 1) by {
      assert [] + e1 == e1;
      RankedEntry([], CategoryKey, f.category);
    }
    assert RankedBelow(e1 + e2, 2) by {
      RankedEntry(e1, StatusKey, f.status);
    }
    assert RankedBelow(e1 + e2 + e3, 3) by {
      RankedEntry(e1 + e2, SeverityKey, f.severity);
    }
    assert RankedBelow(e1 + e2 + e3 + e4, 4) by {
      RankedEntry(e1 + e2 + e3, MinSeverityKey, f.minSeverity);
    }
    RankedEntry(e1 + e2 + e3 + e4, MaxSeverityKey, f.maxSeverity);
  }

  lemma {:induction false} LookupConcat(a: seq<Param>, b: seq<Param>, key: QueryKey)
    ensures Lookup(a + b, key) == if Lookup(a, key).Some? then Lookup(a, key) else Lookup(b, key)
  {
    if a == [] {
      assert a + b == b;
    } else {
      assert (a + b)[1..] == a[1..] + b;
      LookupConcat(a[1..], b, key);
    }
  }

  /** Looking a key up in a list that ends with an entry: the list's own entry wins, else the new one. */
  lemma LookupThrough(a: seq<Param>, key: QueryKey, v: Option<string>, other: QueryKey)
    ensures Lookup(a + Entry(key, v), other)
         == if Lookup(a, other).Some? then Lookup(a, other) else if other == key then Sent(v) else None
  {
    LookupConcat(a, Entry(key, v), other);
  }

  /** The filter property a key names; keys that are not filters name nothing. */
  function FilterFor(f: ApiFilters, k: QueryKey): Option<string> {
    match k
    case CategoryKey => f.category
    case StatusKey => f.status
    case SeverityKey => f.severity
    case MinSeverityKey => f.minSeverity
    case MaxSeverityKey => f.maxSeverity
    case _ => None
  }

  /** What the server reads back from the parameter list is the filters with falsy values dropped. */
  lemma FilterParamsRead(f: ApiFilters)
    ensures ReadQuery(FilterParams(f)) == DropFalsy(AsListQuery(f))
  {
    var e1 := Entry(CategoryKey, f.category);
    var e2 := Entry(StatusKey, f.status);
    var e3 := Entry(SeverityKey, f.severity);
    var e4 := Entry(MinSeverityKey, f.minSeverity);
    var e5 := Entry(MaxSeverityKey, f.maxSeverity);
    assert [] + e1 == e1;
    assert Lookup(FilterParams(f), CategoryKey) == Sent(f.category) by {
      LookupThrough([], CategoryKey, f.category, CategoryKey);
      LookupThrough(e1, StatusKey, f.status, CategoryKey);
      LookupThrough(e1 + e2, SeverityKey, f.severity, CategoryKey);
      LookupThrough(e1 + e2 + e3, MinSeverityKey, f.minSeverity, CategoryKey);
      LookupThrough(e1 + e2 + e3 + e4, MaxSeverityKey, f.maxSeverity, CategoryKey);
    }
    assert Lookup(FilterParams(f), StatusKey) == Sent(f.status) by {
      LookupThrough([], CategoryKey, f.category, StatusKey);
      LookupThrough(e1, StatusKey, f.status, StatusKey);
      LookupThrough(e1 + e2, SeverityKey, f.severity, StatusKey);
      LookupThrough(e1 + e2 + e3, MinSeverityKey, f.minSeverity, StatusKey);
      LookupThrough(e1 + e2 + e3 + e4, MaxSeverityKey, f.maxSeverity, StatusKey);
    }
    assert Lookup(FilterParams(f), SeverityKey) == Sent(f.severity) by {
      LookupThrough([], CategoryKey, f.category, SeverityKey);
      LookupThrough(e1, StatusKey, f.status, SeverityKey);
      LookupThrough(e1 + e2, SeverityKey, f.severity, SeverityKey);
      LookupThrough(e1 + e2 + e3, MinSeverityKey, f.minSeverity, SeverityKey);
      LookupThrough(e1 + e2 + e3 + e4, MaxSeverityKey, f.maxSeverity, SeverityKey);
    }
    assert Lookup(FilterParams(f), MinSeverityKey) == Sent(f.minSeverity) by {
      LookupThrough([], CategoryKey, f.category, MinSeverityKey);
      LookupThrough(e1, StatusKey, f.status, MinSeverityKey);
      LookupThrough(e1 + e2, SeverityKey, f.severity, MinSeverityKey);
      LookupThrough(e1 + e2 + e3, MinSeverityKey, f.minSeverity, MinSeverityKey);
      LookupThrough(e1 + e2 + e3 + e4, MaxSeverityKey, f.maxSeverity, MinSeverityKey);
    }
    assert Lookup(FilterParams(f), MaxSeverityKey) == Sent(f.maxSeverity) by {
      LookupThrough([], CategoryKey, f.category, MaxSeverityKey);
      LookupThrough(e1, StatusKey, f.status, MaxSeverityKey);
      LookupThrough(e1 + e2, SeverityKey, f.severity, MaxSeverityKey);
      LookupThrough(e1 + e2 + e3, MinSeverityKey, f.minSeverity, MaxSeverityKey);
      LookupThrough(e1 + e2 + e3 + e4, MaxSeverityKey, f.maxSeverity, MaxSeverityKey);
    }
  }

  /**
   * Sending the filters through the query string loses nothing the server
   * looks at: it selects the same incidents as the filters themselves.
   */
  lemma SentFiltersListSame(f: ApiFilters, params: seq<Param>, inc: Schema.Incident)
    requires ReadQuery(params) == DropFalsy(AsListQuery(f))
    ensures Controller.ListedBy(ReadQuery(params), inc) <==> Controller.ListedBy(AsListQuery(f), inc)
  {
    DropFalsyListsSame(AsListQuery(f), inc);
  }

  // ---------------------------------------------------------------- the other calls

  function GetIncidentByIdRequest(id: string): Request {
    Request(Get, "/" + id, [], NoBody)
  }

  function CreateIncidentRequest(): Request {
    Request(Post, "/", [], IncidentData)
  }

  function DeleteIncidentRequest(id: string): Request {
    Request(Delete, "/" + id, [], NoBody)
  }

  /** `PATCH /:id/status` with body `{ status }`. */
  function UpdateStatusRequest(id: string, status: string): (r: Request)
    ensures r.verb == Patch && r.query == [] && r.body == StatusBody(status)
    ensures |r.path| == |id| + 1 + |STATUS_SUFFIX| && r.path[0] == '/'
    ensures r.path[1..|id| + 1] == id && r.path[|id| + 1..] == STATUS_SUFFIX
  {
    var path := "/" + id + STATUS_SUFFIX;
    assert path[1..|id| + 1] == id;
    assert path[|id| + 1..] == STATUS_SUFFIX;
    Request(Patch, path, [], StatusBody(status))
  }

  /**
   * `GET /nearby?lng=…&lat=…&radius=…`: the three parameters in that order,
   * the radius defaulting to 5 when the argument is left out.
   */
  function NearbyRequest(lng: string, lat: string, radius: Option<string>): (r: Request)
    ensures r.verb == Get && r.path == NEARBY_PATH && r.body == NoBody
    ensures |r.query| == 3
    ensures r.query[0] == Param(LngKey, lng) && r.query[1] == Param(LatKey, lat)
    ensures r.query[2] == Param(RadiusKey, radius.GetOr(DEFAULT_RADIUS_TEXT))
  {
    Request(Get, NEARBY_PATH, [Param(LngKey, lng), Param(LatKey, lat), Param(RadiusKey, radius.GetOr(DEFAULT_RADIUS_TEXT))], NoBody)
  }

  // ---------------------------------------------------------------- server routing

  /** The handler a request reaches and the path parameter it carries. */
  datatype Route =
    | CreateRoute
    | ListRoute
    | NearbyRoute
    | ByIdRoute(id: string)
    | StatusRoute(id: string)
    | DeleteRoute(id: string)
    | NoRoute

  /** A single non-empty path segment, as `:id` matches it. */
  predicate IsSegment(s: string) {
    s != [] && forall i :: 0 <= i < |s| ==> s[i] != '/'
  }

  /** The router's table, tried in order: `/nearby` is declared before `/:id`. */
  function RouteOf(verb: Verb, path: string): Route {
    if verb == Post && path == "/" then CreateRoute
    else if verb == Get && path == "/" then ListRoute
    else if verb == Get && path == NEARBY_PATH then NearbyRoute
    else if verb == Get && |path| > 1 && path[0] == '/' && IsSegment(path[1..]) then ByIdRoute(path[1..])
    else if verb == Patch && |path| > 1 + |STATUS_SUFFIX| && path[0] == '/'
         && path[|path| - |STATUS_SUFFIX|..] == STATUS_SUFFIX
         && IsSegment(path[1..|path| - |STATUS_SUFFIX|]) then StatusRoute(path[1..|path| - |STATUS_SUFFIX|])
    else if verb == Delete && |path| > 1 && path[0] == '/' && IsSegment(path[1..]) then DeleteRoute(path[1..])
    else NoRoute
  }

  /** A status update for a one-segment id reaches `updateIncidentStatus` with that id. */
  lemma UpdateStatusRoutes(id: string, status: string)
    requires IsSegment(id)
    ensures RouteOf(Patch, UpdateStatusRequest(id, status).path) == StatusRoute(id)
  {
    var path := UpdateStatusRequest(id, status).path;
    assert path[1..|path| - |STATUS_SUFFIX|] == id;
  }

  /** Conversely, any path the status route accepts is the path built for its id. */
  lemma StatusRouteIsBuilt(path: string, status: string)
    requires RouteOf(Patch, path).StatusRoute?
    ensures UpdateStatusRequest(RouteOf(Patch, path).id, status).path == path
  {
    var id := RouteOf(Patch, path).id;
    assert path == [path[0]] + path[1..|path| - |STATUS_SUFFIX|] + path[|path| - |STATUS_SUFFIX|..];
  }

  /** By-id reads and deletes reach their handlers unless the id is the literal `nearby`. */
  lemma ByIdRoutes(id: string)
    requires IsSegment(id) && "/" + id != NEARBY_PATH
    ensures RouteOf(Get, GetIncidentByIdRequest(id).path) == ByIdRoute(id)
    ensures RouteOf(Delete, DeleteIncidentRequest(id).path) == DeleteRoute(id)
  {
    assert ("/" + id)[1..] == id;
  }

  /**
   * A nearby request with both coordinates given reaches the geo lookup with
   * them and with the radius it carries, 5 when the caller gave none.
   */
  lemma NearbyReachesGeoLookup(lng: string, lat: string, radius: Option<string>)
    requires lng != "" && lat != ""
    ensures var r := NearbyRequest(lng, lat, radius);
      && RouteOf(r.verb, r.path) == NearbyRoute
      && Controller.NearbyRequest(Lookup(r.query, LngKey), Lookup(r.query, LatKey), Lookup(r.query, RadiusKey))
         == Controller.GeoLookup(lng, lat, Controller.GivenRadius(radius.GetOr(DEFAULT_RADIUS_TEXT)))
  {
    var r := NearbyRequest(lng, lat, radius);
    assert Lookup(r.query, LngKey) == Some(lng);
    assert Lookup(r.query, LatKey) == Lookup(r.query[1..], LatKey) == Some(lat);
    assert Lookup(r.query, RadiusKey) == Lookup(r.query[1..], RadiusKey) == Lookup(r.query[1..][1..], RadiusKey);
  }
}
