/** The listing of properties (src/pages/Properties.jsx): a type filter,
    capitalised labels, two feature chips per card and a link to the
    property page. */
module PropertiesPage {
  import opened Options
  import opened Lists
  import opened JsText
  import opened JsValue
  import PropertyDetails

  /** The filter buttons, in order. */
  const FilterTypes: seq<string> := ["all", "villa", "apartment", "house"]

  /** `property => property.type === t`. */
  function HasType(t: string): Record -> bool {
    (p: Record) => Get(p, "type") == Some(Str(t))
  }

  /** `filteredProperties`: all for 'all', otherwise exactly those whose
      `type` is the selected one, each as often as listed. */
  function FilteredProperties(properties: seq<Record>, filter: string): (r: seq<Record>)
    ensures filter == "all" ==> r == properties
    ensures filter != "all" ==> forall p :: p in r <==> p in properties && Get(p, "type") == Some(Str(filter))
    ensures filter != "all" ==> forall p: Record :: Get(p, "type") == Some(Str(filter)) ==> multiset(r)[p] == multiset(properties)[p]
  {
    if filter == "all" then properties else Filter(properties, HasType(filter))
  }

  /** Filtering keeps the listing order. */
  lemma FilteredPropertiesAppend(a: seq<Record>, b: seq<Record>, filter: string)
    ensures FilteredProperties(a + b, filter) == FilteredProperties(a, filter) + FilteredProperties(b, filter)
  {
    if filter != "all" {
      FilterAppend(a, b, HasType(filter));
    }
  }

  /** `c.toUpperCase()` for one character; letters other than ASCII `a`
      to `z` are left as they are. */
  function ToUpper(c: char): (u: char)
    ensures 'a' <= c <= 'z' ==> 'A' <= u <= 'Z' && u as int == c as int - 32
    ensures !('a' <= c <= 'z') ==> u == c
  {
    if 'a' <= c <= 'z' then (c as int - 32) as char else c
  }

  /** `s.charAt(0).toUpperCase() + s.slice(1)`. */
  function Capitalize(s: string): (r: string)
    ensures |r| == |s|
    ensures s != "" ==> r[0] == ToUpper(s[0]) && r[1..] == s[1..]
  {
    if s == "" then "" else [ToUpper(s[0])] + s[1..]
  }

  /** Capitalising twice is capitalising once. */
  lemma CapitalizeIdempotent(s: string)
    ensures Capitalize(Capitalize(s)) == Capitalize(s)
  {
    if s != "" {
      var r := Capitalize(s);
      assert ToUpper(r[0]) == r[0];
      assert Capitalize(r) == [r[0]] + r[1..];
    }
  }

  /** The button labels. */
  lemma FilterLabels()
    ensures Capitalize("all") == "All" && Capitalize("villa") == "Villa"
    ensures Capitalize("apartment") == "Apartment" && Capitalize("house") == "House"
  {
  }

  /** The feature chips of a card: the first two features, and the
      "+N more" chip when there are more than two. */
  function FeatureChips(features: seq<Value>): (r: (seq<Value>, Option<nat>))
    ensures r.0 <= features && |r.0| <= 2
    ensures |r.0| == if |features| < 2 then |features| else 2
    ensures r.1.Some? <==> |features| > 2
    ensures r.1.Some? ==> r.1.value == |features| - |r.0|
    ensures |r.0| + r.1.GetOr(0) == |features|
  {
    (Take(features, 2), if |features| > 2 then Some(|features| - 2) else None)
  }

  /** The card link `/property/${property.id}`. */
  function CardLink(p: Record): (link: string)
    ensures forall k :: Get(p, "id") == Some(Num(k)) ==> link == PropertyDetails.PropertyPath(k)
  {
    "/property/" + Text(Get(p, "id"))
  }

  /** A card of a property with a numeric id links to the property page
      that reads back that id. */
  lemma CardLinkReadsBackId(p: Record, k: int)
    requires Get(p, "id") == Some(Num(k))
    ensures PropertyDetails.RouteParam(CardLink(p)) == Some(IntText(k))
    ensures ParseInt(PropertyDetails.RouteParam(CardLink(p)).value) == Some(k)
  {
    assert CardLink(p) == PropertyDetails.PropertyPath(k);
    PropertyDetails.PropertyPathRoundTrip(k);
  }

  /** The listing's state: the selected type. */
  class ListingPage {
    var filter: string

    constructor ()
      ensures filter == "all"
    {
      filter := "all";
    }

    /** A filter button. */
    method SetFilter(t: string)
      modifies this
      ensures filter == t
    {
      filter := t;
    }
  }
}
