/** The fallbacks that the property page (src/pages/PropertyDetails.jsx)
    and the data script (scripts/updateProperties.js) both apply to a
    property record read from properties.json. Each keeps a truthy value
    the record already has and otherwise supplies a default. */
module PropertyFields {
  import opened Options
  import opened JsValue

  /** The five kinds a nearby-places list names, in this order. */
  const PlaceKinds: seq<string> := ["Transport", "Shopping", "Healthcare", "Education", "Business"]

  /** `{ name, distance, type }`. */
  function Place(name: string, distance: string, kind: string): Value {
    Obj(map["name" := Str(name), "distance" := Str(distance), "type" := Str(kind)])
  }

  /** The kind of a nearby place, if it is an object with a text `type`. */
  function KindOf(place: Value): Option<string> {
    if place.Obj? && "type" in place.fields && place.fields["type"].Str?
    then Some(place.fields["type"].s)
    else None
  }

  /** A nearby-places list as both files build it: five entries of the five
      kinds, in the order of PlaceKinds. */
  predicate WellFormedPlaces(places: seq<Value>) {
    |places| == |PlaceKinds| &&
    forall i :: 0 <= i < |places| ==> KindOf(places[i]) == Some(PlaceKinds[i])
  }

  /** The list used when nothing more specific is known. */
  const GenericPlaces: seq<Value> := [
    Place("Metro Station", "1.5 km", "Transport"),
    Place("Shopping Mall", "2.0 km", "Shopping"),
    Place("Hospital", "1.8 km", "Healthcare"),
    Place("School", "1.2 km", "Education"),
    Place("Business District", "3.5 km", "Business")
  ]

  lemma GenericPlacesWellFormed()
    ensures WellFormedPlaces(GenericPlaces)
  {
  }

  /** The five default highlights; the first names the location. */
  function DefaultHighlights(location: string): (r: seq<Value>)
    ensures |r| == 5 && r[0] == Str("Prime location in " + location)
  {
    [ Str("Prime location in " + location),
      Str("Vastu compliant design"),
      Str("Premium fittings and fixtures"),
      Str("24/7 power backup and security"),
      Str("Excellent connectivity") ]
  }

  predicate IsVilla(p: Record) {
    Get(p, "type") == Some(Str("villa"))
  }

  /** `property.status || property.age || "Ready to Move"`. */
  function StatusOf(p: Record): (r: Value)
    ensures Truthy(r)
    ensures IsTruthy(Get(p, "status")) ==> r == p["status"]
    ensures !IsTruthy(Get(p, "status")) && IsTruthy(Get(p, "age")) ==> r == p["age"]
    ensures !IsTruthy(Get(p, "status")) && !IsTruthy(Get(p, "age")) ==> r == Str("Ready to Move")
  {
    OrElse(Get(p, "status"), OrElse(Get(p, "age"), Str("Ready to Move")))
  }

  /** `property.furnished || (villa ? "Semi-Furnished" : "Unfurnished")`. */
  function FurnishedOf(p: Record): (r: Value)
    ensures Truthy(r)
    ensures IsTruthy(Get(p, "furnished")) ==> r == p["furnished"]
    ensures !IsTruthy(Get(p, "furnished")) ==>
      r == Str(if IsVilla(p) then "Semi-Furnished" else "Unfurnished")
  {
    OrElse(Get(p, "furnished"), Str(if IsVilla(p) then "Semi-Furnished" else "Unfurnished"))
  }

  /** `property.plotArea || (villa ? "250 sq yards" : "N/A")`. */
  function PlotAreaOf(p: Record): (r: Value)
    ensures Truthy(r)
    ensures IsTruthy(Get(p, "plotArea")) ==> r == p["plotArea"]
    ensures !IsTruthy(Get(p, "plotArea")) ==> r == Str(if IsVilla(p) then "250 sq yards" else "N/A")
  {
    OrElse(Get(p, "plotArea"), Str(if IsVilla(p) then "250 sq yards" else "N/A"))
  }

  /** `property.rera || \`RERA${property.id}23456789\``. */
  function ReraOf(p: Record): (r: Value)
    ensures Truthy(r)
    ensures IsTruthy(Get(p, "rera")) ==> r == p["rera"]
    ensures !IsTruthy(Get(p, "rera")) ==> r == Str("RERA" + Text(Get(p, "id")) + "23456789")
  {
    OrElse(Get(p, "rera"), Str("RERA" + Text(Get(p, "id")) + "23456789"))
  }

  /** `property.highlights || [five defaults naming the location]`. */
  function HighlightsOf(p: Record): (r: Value)
    ensures Truthy(r)
    ensures IsTruthy(Get(p, "highlights")) ==> r == p["highlights"]
    ensures !IsTruthy(Get(p, "highlights")) ==> r == Arr(DefaultHighlights(Text(Get(p, "location"))))
  {
    OrElse(Get(p, "highlights"), Arr(DefaultHighlights(Text(Get(p, "location")))))
  }
}
