/**
 * The Incident document of the server's Mongoose schema: its fields, the
 * closed sets of categories and statuses, the severity range, the `pending`
 * default, the trimming of `title`, and the validity that `save()` checks.
 * Timestamps (`createdAt`, `updatedAt`) are integers standing for instants.
 */
module Schema {
  import opened Wrappers

  /** The document identifier, as the hex string of its ObjectId. */
  type Id = string

  const CATEGORIES: seq<string> := ["Fire", "Accident", "Crime", "Disaster"]
  const STATUSES: seq<string> := ["pending", "verified", "resolved"]
  const DEFAULT_STATUS: string := "pending"
  const MIN_SEVERITY: int := 1
  const MAX_SEVERITY: int := 5
  const POINT: string := "Point"

  /** A GeoJSON point: `coordinates` holds longitude first, then latitude. */
  datatype Location = Location(kind: string, coordinates: seq<real>)

  datatype Incident = Incident(
    id: Id,
    title: string,
    description: string,
    category: string,
    severity: int,
    status: string,
    location: Location,
    media: seq<string>,
    createdAt: int,
    updatedAt: int)

  /** What the controller hands to `new Incident({...})`; `status` may be left out. */
  datatype Draft = Draft(
    title: string,
    description: string,
    category: string,
    severity: int,
    status: Option<string>,
    coordinates: seq<real>,
    media: seq<string>)

  /**
   * The characters `String.prototype.trim` removes: the ECMAScript
   * WhiteSpace set (tab, vertical tab, form feed, the byte order mark and
   * every space separator of category Zs) and the LineTerminator set.
   */
  predicate IsWhitespace(c: char) {
    || c == '\t' || c == '\U{B}' || c == '\U{C}' || c == ' ' || c == '\U{A0}' || c == '\U{FEFF}'
    || c == '\U{1680}' || ('\U{2000}' <= c <= '\U{200A}') || c == '\U{202F}' || c == '\U{205F}'
    || c == '\U{3000}'
    || c == '\n' || c == '\r' || c == '\U{2028}' || c == '\U{2029}'
  }

  function TrimStart(s: string): (r: string)
    ensures |r| <= |s| && r == s[|s| - |r|..]
    ensures r == [] || !IsWhitespace(r[0])
    ensures forall i :: 0 <= i < |s| - |r| ==> IsWhitespace(s[i])
  {
    if s != [] && IsWhitespace(s[0]) then TrimStart(s[1..]) else s
  }

  function TrimEnd(s: string): (r: string)
    ensures |r| <= |s| && r == s[..|r|]
    ensures r == [] || !IsWhitespace(r[|r| - 1])
    ensures forall i :: |r| <= i < |s| ==> IsWhitespace(s[i])
  {
    if s != [] && IsWhitespace(s[|s| - 1]) then TrimEnd(s[..|s| - 1]) else s
  }

  /** The schema's `trim: true` setter on `title`. */
  function Trim(s: string): string {
    TrimEnd(TrimStart(s))
  }

  lemma TrimStartOfTrimEnd(s: string)
    requires s == [] || !IsWhitespace(s[0])
    ensures TrimStart(TrimEnd(s)) == TrimEnd(s)
  {
    var t := TrimEnd(s);
    if t != [] {
      assert t[0] == s[0];
    }
  }

  /** Trimming a trimmed title changes nothing, so a stored title is its own trim. */
  lemma TrimIdempotent(s: string)
    ensures Trim(Trim(s)) == Trim(s)
  {
    var a := TrimStart(s);
    var t := TrimEnd(a);
    TrimStartOfTrimEnd(a);
    assert TrimStart(t) == t;
    assert TrimEnd(t) == t;
  }

  /** A title made only of whitespace trims to nothing, so its document fails validation. */
  lemma BlankTitleInvalid(d: Draft, id: Id, now: int)
    requires forall i :: 0 <= i < |d.title| ==> IsWhitespace(d.title[i])
    ensures Trim(d.title) == ""
    ensures !Valid(Construct(d, id, now))
  {
  }

  /** No two documents of a list share an id. */
  ghost predicate DistinctIds(s: seq<Incident>) {
    forall i, j :: 0 <= i < j < |s| ==> s[i].id != s[j].id
  }

  predicate ValidCategory(c: string) {
    c in CATEGORIES
  }

  predicate ValidStatus(s: string) {
    s in STATUSES
  }

  predicate ValidSeverity(n: int) {
    MIN_SEVERITY <= n <= MAX_SEVERITY
  }

  /**
   * The validators `save()` runs: `title` (already trimmed) and `description`
   * are required, so not empty; `category` and `status` lie in their enums;
   * `severity` lies in [1, 5]; `location.type` is 'Point'. `coordinates` is a
   * required array of numbers, which any sequence (of any length) satisfies;
   * `media` is any sequence of strings.
   */
  predicate Valid(inc: Incident) {
    && inc.title != "" && Trim(inc.title) == inc.title
    && inc.description != ""
    && ValidCategory(inc.category)
    && ValidSeverity(inc.severity)
    && ValidStatus(inc.status)
    && inc.location.kind == POINT
  }

  /**
   * The document `new Incident(draft)` builds before saving: the title goes
   * through the trim setter, a missing status takes the default, the location
   * is a Point with the coordinates exactly as given, and both timestamps are
   * the save instant.
   */
  function Construct(d: Draft, id: Id, now: int): (inc: Incident)
    ensures inc.id == id && inc.createdAt == now && inc.updatedAt == now
    ensures inc.title == Trim(d.title)
    ensures inc.status == d.status.GetOr(DEFAULT_STATUS)
    ensures inc.location == Location(POINT, d.coordinates)
    ensures inc.description == d.description && inc.category == d.category
    ensures inc.severity == d.severity && inc.media == d.media
  {
    Incident(id, Trim(d.title), d.description, d.category, d.severity,
             d.status.GetOr(DEFAULT_STATUS), Location(POINT, d.coordinates),
             d.media, now, now)
  }

  /**
   * A draft builds a valid document exactly when its trimmed title is not
   * empty, its description is not empty, its category and severity are in
   * range, and its status (or the default) is one of the three.
   */
  lemma ConstructValid(d: Draft, id: Id, now: int)
    ensures Valid(Construct(d, id, now)) <==>
      && Trim(d.title) != ""
      && d.description != ""
      && ValidCategory(d.category)
      && ValidSeverity(d.severity)
      && ValidStatus(d.status.GetOr(DEFAULT_STATUS))
  {
    TrimIdempotent(d.title);
  }

  /** A draft without a status is stored as `pending`, and `pending` is a valid status. */
  lemma DefaultStatusIsPending(d: Draft, id: Id, now: int)
    requires d.status == None
    ensures Construct(d, id, now).status == "pending"
    ensures ValidStatus(DEFAULT_STATUS)
  {
  }
}
