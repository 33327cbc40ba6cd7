/** The one-off data script scripts/updateProperties.js: every property of
    properties.json gets the fields the property page reads, without
    overriding a field it already has. The file read and write are left
    out; the script is modelled from the parsed list to the list it writes. */
module UpdateProperties {
  import opened Options
  import opened JsValue
  import opened JsText
  import opened PropertyFields
  import opened Lists
  import PropertyDetails

  /** `defaultValues`. */
  const DefaultValues: Record := map[
    "status" := Str("Ready to Move"),
    "possession" := Str("Immediate"),
    "floorPlan" := Str("https://images.unsplash.com/photo-1503387762-592deb58ef4e?w=800&h=600&fit=crop&crop=center"),
    "virtualTour" := Str("https://www.youtube.com/embed/sM427iZRWGE"),
    "originalPrice" := Null
  ]

  /** The keys the literal after the three spreads writes explicitly. */
  const UpdatedKeys: set<string> := {
    "status", "furnished", "plotArea", "rera", "highlights", "nearbyPlaces" }

  /** `locationMappings[base]`, looking only at the five localities the
      mapping itself lists: each has five places, one of each kind. */
  function LocalityPlaces(base: string): (r: Option<seq<Value>>)
    ensures r.Some? <==> base in Localities
    ensures r.Some? ==> WellFormedPlaces(r.value)
  {
    if base == "DLF Phase 1" then Some(DlfPhase1Places())
    else if base == "Sector 62" then Some(Sector62Places())
    else if base == "Sector 21" then Some(Sector21Places())
    else if base == "Greater Kailash" then Some(GreaterKailashPlaces())
    else if base == "Dwarka Sector 12" then Some(DwarkaSector12Places())
    else None
  }

  /** `locationMappings["DLF Phase 1"]`. */
  function DlfPhase1Places(): (r: seq<Value>)
    ensures WellFormedPlaces(r)
  {
    [
      Place("Cyber Hub Metro", "1.5 km", "Transport"),
      Place("Ambience Mall", "2.0 km", "Shopping"),
      Place("Medanta Hospital", "1.8 km", "Healthcare"),
      Place("DPS Gurgaon", "1.2 km", "Education"),
      Place("Cyber City", "3.5 km", "Business")
    ]
  }

  /** `locationMappings["Sector 62"]`. */
  function Sector62Places(): (r: seq<Value>)
    ensures WellFormedPlaces(r)
  {
    [
      Place("Noida City Centre Metro", "0.8 km", "Transport"),
      Place("DLF Mall of India", "1.5 km", "Shopping"),
      Place("Fortis Hospital", "2.2 km", "Healthcare"),
      Place("Delhi Public School", "1.0 km", "Education"),
      Place("Sector 62 IT Hub", "0.5 km", "Business")
    ]
  }

  /** `locationMappings["Sector 21"]`. */
  function Sector21Places(): (r: seq<Value>)
    ensures WellFormedPlaces(r)
  {
    [
      Place("Faridabad Metro Station", "2.5 km", "Transport"),
      Place("Crown Plaza Mall", "1.8 km", "Shopping"),
      Place("Sarvodaya Hospital", "1.5 km", "Healthcare"),
      Place("Modern Public School", "0.8 km", "Education"),
      Place("BPTP Park", "2.0 km", "Business")
    ]
  }

  /** `locationMappings["Greater Kailash"]`. */
  function GreaterKailashPlaces(): (r: seq<Value>)
    ensures WellFormedPlaces(r)
  {
    [
      Place("Kailash Colony Metro", "0.5 km", "Transport"),
      Place("Select City Walk Mall", "1.2 km", "Shopping"),
      Place("Max Hospital", "1.0 km", "Healthcare"),
      Place("Modern School", "0.8 km", "Education"),
      Place("Nehru Place", "2.5 km", "Business")
    ]
  }

  /** `locationMappings["Dwarka Sector 12"]`. */
  function DwarkaSector12Places(): (r: seq<Value>)
    ensures WellFormedPlaces(r)
  {
    [
      Place("Dwarka Metro Station", "1.0 km", "Transport"),
      Place("City Centre Mall", "1.5 km", "Shopping"),
      Place("Venkateshwar Hospital", "2.0 km", "Healthcare"),
      Place("Delhi Public School", "0.5 km", "Education"),
      Place("Dwarka Business District", "2.5 km", "Business")
    ]
  }

  /** `location.split(',')[0].trim()`: the locality a location names. */
  function BaseLocation(location: string): (r: string)
    ensures ',' !in r
  {
    var head := BeforeFirst(location, ',');
    TrimRemovesOnlyWhiteSpace(head);
    var i := |head| - |TrimStart(head)|;
    assert forall j :: 0 <= j < |Trim(head)| ==> Trim(head)[j] == head[i + j];
    Trim(head)
  }

  /** `getNearbyPlaces`, with the lookup confined to the listed
      localities: their places for one of them, the generic list for any
      other. Either way five places, one of each kind. */
  function NearbyPlaces(location: string): (r: seq<Value>)
    ensures WellFormedPlaces(r)
    ensures LocalityPlaces(BaseLocation(location)).Some? ==> r == LocalityPlaces(BaseLocation(location)).value
    ensures LocalityPlaces(BaseLocation(location)).None? ==> r == GenericPlaces
  {
    GenericPlacesWellFormed();
    match LocalityPlaces(BaseLocation(location))
    case Some(places) => places
    case None => GenericPlaces
  }

  /** Only the locality matters: white space around it and anything after
      the first comma are ignored. */
  lemma NearbyPlacesOfLocality(before: string, locality: string, after: string, rest: string)
    requires AllWhiteSpace(before) && AllWhiteSpace(after)
    requires ',' !in before + locality + after
    ensures NearbyPlaces(before + locality + after + "," + rest) == NearbyPlaces(locality)
    ensures NearbyPlaces(before + locality + after) == NearbyPlaces(locality)
  {
    var padded := before + locality + after;
    assert padded + "," + rest == padded + [','] + rest;
    BeforeFirstOfJoined(padded, ',', rest);
    BeforeFirstWithout(padded, ',');
    BeforeFirstWithout(locality, ',');
    TrimIgnoresPadding(before, locality, after);
  }

  /** Whether the script gets through a record without throwing: it has
      truthy nearby places, or a `location` that is a string. */
  predicate Updatable(p: Record) {
    IsTruthy(Get(p, "nearbyPlaces")) || (Get(p, "location").Some? && Get(p, "location").value.Str?)
  }

  /** The value `nearbyPlaces` receives: the record's own when truthy,
      otherwise the looked-up list. `location.split` throws a TypeError
      when `location` is not a string; its message, given as V8 words it,
      depends on whether `location` is absent, null or another value. */
  function NearbyOf(p: Record): (r: Result<Value>)
    ensures r.Failure? <==> !Updatable(p)
    ensures r.Success? && IsTruthy(Get(p, "nearbyPlaces")) ==> r.value == p["nearbyPlaces"]
    ensures r.Success? && !IsTruthy(Get(p, "nearbyPlaces")) ==> r.value == Arr(NearbyPlaces(p["location"].s))
    ensures r.Success? ==> Truthy(r.value)
    ensures r.Failure? && Get(p, "location") == None ==>
      r.error == "TypeError: Cannot read properties of undefined (reading 'split')"
    ensures r.Failure? && Get(p, "location") == Some(Null) ==>
      r.error == "TypeError: Cannot read properties of null (reading 'split')"
    ensures r.Failure? && Get(p, "location").Some? && Get(p, "location").value != Null ==>
      r.error == "TypeError: location.split is not a function"
  {
    if IsTruthy(Get(p, "nearbyPlaces")) then Success(p["nearbyPlaces"])
    else match Get(p, "location")
      case Some(Str(location)) => Success(Arr(NearbyPlaces(location)))
      case None => Failure("TypeError: Cannot read properties of undefined (reading 'split')")
      case Some(Null) => Failure("TypeError: Cannot read properties of null (reading 'split')")
      case _ => Failure("TypeError: location.split is not a function")
  }

  /** The value key `k` of UpdatedKeys receives, `nearby` being the one
      for `nearbyPlaces`: the record's own value when truthy, else the
      fallback; always truthy. */
  function UpdatedField(p: Record, nearby: Value, k: string): (v: Value)
    requires k in UpdatedKeys && Truthy(nearby)
    ensures Truthy(v)
    ensures k != "nearbyPlaces" && IsTruthy(Get(p, k)) ==> v == p[k]
    ensures k == "nearbyPlaces" ==> v == nearby
  {
    if k == "status" then StatusOf(p)
    else if k == "furnished" then FurnishedOf(p)
    else if k == "plotArea" then PlotAreaOf(p)
    else if k == "rera" then ReraOf(p)
    else if k == "highlights" then HighlightsOf(p)
    else nearby
  }

  /** `{...property, ...defaultValues, ...property, status: ..., ...}`. */
  function Updated(p: Record, nearby: Value): (u: Record)
    requires Truthy(nearby)
    ensures u.Keys == p.Keys + DefaultValues.Keys + UpdatedKeys
    ensures forall k :: k in p && k !in UpdatedKeys ==> u[k] == p[k]
    ensures forall k :: k in DefaultValues && k !in p && k !in UpdatedKeys ==> u[k] == DefaultValues[k]
    ensures forall k :: k in UpdatedKeys ==> u[k] == UpdatedField(p, nearby, k)
  {
    p + DefaultValues + p + map k | k in UpdatedKeys :: UpdatedField(p, nearby, k)
  }

  /** The callback of `properties.map`: one record as the script writes
      it, or the TypeError that stops the script before anything is
      written. */
  function UpdateProperty(p: Record): (r: Result<Record>)
    ensures r.Success? <==> Updatable(p)
    ensures r.Success? ==> r.value.Keys == p.Keys + DefaultValues.Keys + UpdatedKeys
  {
    match NearbyOf(p)
    case Failure(e) => Failure(e)
    case Success(nearby) => Success(Updated(p, nearby))
  }

  /** A key the record has keeps its value unless it is one of UpdatedKeys
      and falsy; a key it lacks gets its default; every written key is
      truthy, and looked-up places are a well-formed list. */
  lemma UpdatePropertyFields(p: Record)
    requires Updatable(p)
    ensures var u := UpdateProperty(p).value;
      (forall k :: k in p && (k !in UpdatedKeys || IsTruthy(Get(p, k))) ==> u[k] == p[k]) &&
      (forall k :: k in DefaultValues && k !in p && k !in UpdatedKeys ==> u[k] == DefaultValues[k]) &&
      (forall k :: k in UpdatedKeys ==> Truthy(u[k])) &&
      (!IsTruthy(Get(p, "nearbyPlaces")) ==> u["nearbyPlaces"].Arr? && WellFormedPlaces(u["nearbyPlaces"].items))
  {
    var nearby := NearbyOf(p).value;
    var u := UpdateProperty(p).value;
    assert u == Updated(p, nearby);
    forall k | k in p && k in UpdatedKeys && IsTruthy(Get(p, k))
      ensures u[k] == p[k]
    {
      if k == "nearbyPlaces" {
        assert nearby == p[k];
      }
    }
  }

  /** `properties.map(...)`: all records updated, in order, or the
      TypeError of the first record that has neither nearby places nor a
      text location. */
  function UpdateAll(ps: seq<Record>): (r: Result<seq<Record>>)
    ensures r.Success? <==> forall i :: 0 <= i < |ps| ==> Updatable(ps[i])
    ensures r.Success? ==> |r.value| == |ps|
    ensures r.Failure? ==>
      exists i :: 0 <= i < |ps| && UpdateProperty(ps[i]) == Failure(r.error) &&
                  forall j :: 0 <= j < i ==> Updatable(ps[j])
  {
    MapAll(ps, UpdateProperty)
  }

  /** The record at each position of the output is the update of the
      record at that position of the input. */
  lemma UpdateAllInOrder(ps: seq<Record>, i: int)
    requires forall j :: 0 <= j < |ps| ==> Updatable(ps[j])
    requires 0 <= i < |ps|
    ensures UpdateProperty(ps[i]).Success? && UpdateAll(ps).value[i] == UpdateProperty(ps[i]).value
  {
    assert UpdateAll(ps) == MapAll(ps, UpdateProperty);
  }

  /** On a record the script wrote, each written field is kept. */
  lemma UpdatedFieldOfWritten(u: Record, nearby: Value, k: string)
    requires k in UpdatedKeys && Truthy(nearby)
    requires k in u && Truthy(u[k]) && (k == "nearbyPlaces" ==> nearby == u[k])
    ensures UpdatedField(u, nearby, k) == u[k]
  {
  }

  /** A record that already has every default key and a truthy value
      under every written key comes out of the literal unchanged. */
  lemma UpdatedOfWritten(u: Record)
    requires DefaultValues.Keys + UpdatedKeys <= u.Keys
    requires forall k :: k in UpdatedKeys ==> Truthy(u[k])
    ensures Updated(u, u["nearbyPlaces"]) == u
  {
    var nearby := u["nearbyPlaces"];
    var v := Updated(u, nearby);
    forall k | k in u
      ensures v[k] == u[k]
    {
      if k in UpdatedKeys {
        UpdatedFieldOfWritten(u, nearby, k);
      }
    }
  }

  /** Running the script on its own output changes nothing. */
  lemma UpdatePropertyIdempotent(p: Record)
    requires Updatable(p)
    ensures UpdateProperty(UpdateProperty(p).value) == UpdateProperty(p)
  {
    var u := UpdateProperty(p).value;
    UpdatePropertyFields(p);
    assert NearbyOf(u) == Success(u["nearbyPlaces"]);
    UpdatedOfWritten(u);
  }

  lemma UpdateAllIdempotent(ps: seq<Record>)
    requires forall i :: 0 <= i < |ps| ==> Updatable(ps[i])
    ensures UpdateAll(UpdateAll(ps).value) == UpdateAll(ps)
  {
    var us := UpdateAll(ps).value;
    forall i | 0 <= i < |us|
      ensures UpdateProperty(us[i]) == Success(us[i])
    {
      UpdateAllInOrder(ps, i);
      UpdatePropertyIdempotent(ps[i]);
    }
    assert UpdateAll(us).value == us;
  }

  /** The fields the script writes are the ones the property page fills
      in the same way: on a record the script wrote, the page keeps them. */
  lemma PageKeepsScriptFields(p: Record, k: string)
    requires Updatable(p)
    requires k in UpdatedKeys
    ensures PropertyDetails.Enhance(UpdateProperty(p).value)[k] == UpdateProperty(p).value[k]
  {
    var u := UpdateProperty(p).value;
    UpdatePropertyFields(p);
    assert IsTruthy(Get(u, k));
    assert k in PropertyDetails.EnhancedKeys;
  }

  // ---- `locationMappings[baseLocation]` as written --------------------

  /** The five localities `locationMappings` lists. */
  const Localities: set<string> := {
    "DLF Phase 1", "Sector 62", "Sector 21", "Greater Kailash", "Dwarka Sector 12" }

  /** The names an object literal inherits from `Object.prototype`. */
  const PrototypeMembers: set<string> := {
    "constructor", "hasOwnProperty", "isPrototypeOf", "propertyIsEnumerable",
    "toString", "toLocaleString", "valueOf", "__proto__",
    "__defineGetter__", "__defineSetter__", "__lookupGetter__", "__lookupSetter__" }

  lemma LocalitiesNotInherited()
    ensures forall b :: b in Localities ==> b !in PrototypeMembers
  {
  }

  /** `locationMappings[baseLocation] || [generic]` as the script writes
      it, given as what `JSON.stringify` then stores under `nearbyPlaces`:
      the property lookup also finds inherited members, which are truthy.
      An inherited method is a function, so the key is dropped (`None`);
      `__proto__` is `Object.prototype`, written as `{}`. */
  function NearbyAsWritten(location: string): (r: Option<Value>)
    ensures BaseLocation(location) !in PrototypeMembers ==> r == Some(Arr(NearbyPlaces(location)))
    ensures BaseLocation(location) in PrototypeMembers ==> !(r.Some? && r.value.Arr?)
  {
    var base := BaseLocation(location);
    LocalitiesNotInherited();
    match LocalityPlaces(base)
    case Some(places) => Some(Arr(places))
    case None =>
      if base == "__proto__" then Some(Obj(map[]))
      else if base in PrototypeMembers then None
      else Some(Arr(GenericPlaces))
  }

  /** A property at "toString, Delhi" would be written with no
      `nearbyPlaces` at all, while the lookup the script means gives it
      the generic five. */
  lemma InheritedLocalityLosesPlaces()
    ensures NearbyAsWritten("toString, Delhi") == None
    ensures NearbyPlaces("toString, Delhi") == GenericPlaces
  {
    ToStringLocality();
  }

  /** The locality of "toString, Delhi" is "toString". */
  lemma ToStringLocality()
    ensures BaseLocation("toString, Delhi") == "toString"
  {
    assert "toString, Delhi" == "toString" + [','] + " Delhi";
    BeforeFirstOfJoined("toString", ',', " Delhi");
    TrimOfTrimmed("toString");
  }
}
