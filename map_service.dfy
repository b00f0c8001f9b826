/**
 * The client's pure map helpers: marker colour by severity, icon by
 * category, and the latitude-first display of a stored longitude-first
 * coordinate pair. Number formatting (`toFixed(6)`) is not modelled: the
 * display keeps the two numbers, in display order.
 */
module MapService {
  import opened Wrappers
  import Schema

  const SEVERITY_COLORS: seq<string> := ["green", "blue", "yellow", "orange", "red"]
  const UNKNOWN_COLOR: string := "gray"

  const FIRE_ICON: string := "\U{1F525}"
  const ACCIDENT_ICON: string := "\U{1F697}"
  const CRIME_ICON: string := "\U{1F6A8}"
  const DISASTER_ICON: string := "\U{1F32A}\U{FE0F}"
  const DEFAULT_ICON: string := "\U{1F4CD}"
  /** The icons in the order of `Schema.CATEGORIES`. */
  const CATEGORY_ICONS: seq<string> := [FIRE_ICON, ACCIDENT_ICON, CRIME_ICON, DISASTER_ICON]

  /** `getSeverityColor`: a `switch` with strict equality on the numbers 1 to 5. */
  function SeverityColor(severity: int): (color: string)
    ensures 1 <= severity <= 5 ==> color == SEVERITY_COLORS[severity - 1]
    ensures !(1 <= severity <= 5) ==> color == UNKNOWN_COLOR
  {
    match severity
    case 1 => "green"
    case 2 => "blue"
    case 3 => "yellow"
    case 4 => "orange"
    case 5 => "red"
    case _ => "gray"
  }

  /** Each valid severity has a colour of its own, and none of them is the fallback. */
  lemma SeverityColorsDistinct(a: int, b: int)
    requires Schema.ValidSeverity(a) && Schema.ValidSeverity(b) && a != b
    ensures SeverityColor(a) != SeverityColor(b)
    ensures SeverityColor(a) != UNKNOWN_COLOR
  {
  }

  /** `getCategoryIcon`: the icon of one of the four categories, or the pin for anything else. */
  function CategoryIcon(category: string): (icon: string)
    ensures forall i :: 0 <= i < |Schema.CATEGORIES| && category == Schema.CATEGORIES[i] ==> icon == CATEGORY_ICONS[i]
    ensures category !in Schema.CATEGORIES ==> icon == DEFAULT_ICON
  {
    if category == "Fire" then FIRE_ICON
    else if category == "Accident" then ACCIDENT_ICON
    else if category == "Crime" then CRIME_ICON
    else if category == "Disaster" then DISASTER_ICON
    else DEFAULT_ICON
  }

  /** The four categories get four distinct icons, none of them the pin. */
  lemma CategoryIconsDistinct(a: string, b: string)
    requires Schema.ValidCategory(a) && Schema.ValidCategory(b) && a != b
    ensures CategoryIcon(a) != CategoryIcon(b)
    ensures CategoryIcon(a) != DEFAULT_ICON
  {
  }

  /** A map position, named so that the two axes cannot be swapped by accident. */
  datatype LatLng = LatLng(lat: real, lng: real)

  /** The stored GeoJSON order: longitude, then latitude. */
  function ToCoordinates(p: LatLng): seq<real> {
    [p.lng, p.lat]
  }

  function FromCoordinates(c: seq<real>): (p: Option<LatLng>)
    ensures p.Some? <==> |c| == 2
  {
    if |c| == 2 then Some(LatLng(c[1], c[0])) else None
  }

  lemma CoordinatesRoundTrip(p: LatLng, c: seq<real>)
    ensures FromCoordinates(ToCoordinates(p)) == Some(p)
    ensures FromCoordinates(c).Some? ==> ToCoordinates(FromCoordinates(c).value) == c
  {
  }

  /** What `formatCoordinates` shows: 'N/A', or the two numbers latitude first. */
  datatype CoordinateText = NotAvailable | Shown(first: real, second: real)

  /** `formatCoordinates`: anything but a present pair is 'N/A'; a pair prints index 1, then index 0. */
  function FormatCoordinates(coordinates: Option<seq<real>>): (t: CoordinateText)
    ensures t.NotAvailable? <==> coordinates.None? || |coordinates.value| != 2
    ensures t.Shown? ==> t.first == coordinates.value[1] && t.second == coordinates.value[0]
  {
    if coordinates.None? || |coordinates.value| != 2 then NotAvailable
    else Shown(coordinates.value[1], coordinates.value[0])
  }

  /** A stored position is displayed latitude first, as the point it came from. */
  lemma FormatShowsLatitudeFirst(p: LatLng)
    ensures FormatCoordinates(Some(ToCoordinates(p))) == Shown(p.lat, p.lng)
  {
  }
}
