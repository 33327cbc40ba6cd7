/** The property page (src/pages/PropertyDetails.jsx): the lookup of the
    property named by the route, the record with its fallbacks filled in,
    and the page state (image cursor, image modal, inquiry form). */
module PropertyDetails {
  import opened Options
  import opened JsValue
  import opened JsText
  import opened Lists
  import opened PropertyFields
  import Slideshow

  /** What the page does: render a property, or redirect. */
  datatype Page = Show(property: Record) | Redirect(path: string)

  /** `p => p.id === k`. */
  function HasId(k: int): Record -> bool {
    p => Get(p, "id") == Some(Num(k))
  }

  /** `propertiesData.find(p => p.id === parseInt(id))`, and the redirect
      to the listing when nothing matches (including when the route
      parameter is not a number, since `NaN` equals nothing). */
  function Lookup(properties: seq<Record>, idParam: string): (page: Page)
    ensures page.Redirect? ==> page.path == "/properties"
    ensures page.Show? <==>
      ParseInt(idParam).Some? &&
      exists i :: 0 <= i < |properties| && HasId(ParseInt(idParam).value)(properties[i])
    ensures page.Show? ==>
      exists i :: 0 <= i < |properties| && properties[i] == page.property &&
        HasId(ParseInt(idParam).value)(properties[i]) &&
        forall j :: 0 <= j < i ==> !HasId(ParseInt(idParam).value)(properties[j])
  {
    match ParseInt(idParam)
    case None => Redirect("/properties")
    case Some(k) =>
      match FindFirst(properties, HasId(k))
      case None => Redirect("/properties")
      case Some(i) => Show(properties[i])
  }

  /** The route of the property page for id `k`: `/property/${k}`. */
  function PropertyPath(k: int): (path: string)
    ensures |path| > |"/property/"| && path[..|"/property/"|] == "/property/"
    ensures ParseInt(path[|"/property/"|..]) == Some(k)
  {
    IntTextShape(k);
    ParseIntText(k);
    assert ("/property/" + IntText(k))[|"/property/"|..] == IntText(k);
    "/property/" + IntText(k)
  }

  /** The `:id` parameter of the route `/property/:id`: the one non-empty
      path segment after the prefix. */
  function RouteParam(path: string): (id: Option<string>)
    ensures id.Some? ==> path == "/property/" + id.value && id.value != "" && '/' !in id.value
  {
    var prefix := "/property/";
    if |path| > |prefix| && path[..|prefix|] == prefix && '/' !in path[|prefix|..]
    then
      assert path == prefix + path[|prefix|..];
      Some(path[|prefix|..])
    else None
  }

  /** The parameter of a property's route reads back as its id. */
  lemma PropertyPathRoundTrip(k: int)
    ensures RouteParam(PropertyPath(k)) == Some(IntText(k))
    ensures ParseInt(RouteParam(PropertyPath(k)).value) == Some(k)
  {
    var path := PropertyPath(k);
    var prefix := "/property/";
    var t := IntText(k);
    IntTextShape(k);
    assert '/' !in t by {
      forall i | 0 <= i < |t|
        ensures t[i] != '/'
      {
      }
    }
    assert path == prefix + t;
    assert path[..|prefix|] == prefix && path[|prefix|..] == t;
    ParseIntText(k);
  }

  /** A card link leads back to the first property with that id. */
  lemma LinkLeadsToProperty(properties: seq<Record>, i: nat, k: int)
    requires i < |properties| && HasId(k)(properties[i])
    requires forall j :: 0 <= j < i ==> !HasId(k)(properties[j])
    ensures Lookup(properties, RouteParam(PropertyPath(k)).value) == Show(properties[i])
  {
    PropertyPathRoundTrip(k);
    var r := FindFirst(properties, HasId(k));
    assert r.Some?;
    if r.value < i {
    } else if r.value > i {
    }
  }

  /** The keys `enhancedProperty` writes over the spread record. */
  const EnhancedKeys: set<string> := {
    "status", "furnished", "plotArea", "possession", "rera", "originalPrice",
    "floorPlan", "virtualTour", "highlights", "nearbyPlaces" }

  const FloorPlanUrl: string := "https://images.unsplash.com/photo-1503387762-592deb58ef4e?w=800&h=600&fit=crop&crop=center"
  const VirtualTourUrl: string := "https://www.youtube.com/embed/sM427iZRWGE"

  /** The value `enhancedProperty` gives key `k` of EnhancedKeys: the
      record's own value when it is truthy, otherwise the fallback. Every
      result is truthy except `originalPrice`, whose fallback is `null`. */
  function FilledField(p: Record, k: string): (v: Value)
    requires k in EnhancedKeys
    ensures IsTruthy(Get(p, k)) ==> v == p[k]
    ensures k != "originalPrice" ==> Truthy(v)
    ensures k == "originalPrice" && !IsTruthy(Get(p, k)) ==> v == Null
    ensures k == "nearbyPlaces" && !IsTruthy(Get(p, k)) ==> v == Arr(GenericPlaces)
    ensures k == "possession" && !IsTruthy(Get(p, k)) ==> v == Str("Immediate")
    ensures k == "floorPlan" && !IsTruthy(Get(p, k)) ==> v == Str(FloorPlanUrl)
    ensures k == "virtualTour" && !IsTruthy(Get(p, k)) ==> v == Str(VirtualTourUrl)
  {
    if k == "status" then StatusOf(p)
    else if k == "furnished" then FurnishedOf(p)
    else if k == "plotArea" then PlotAreaOf(p)
    else if k == "possession" then OrElse(Get(p, k), Str("Immediate"))
    else if k == "rera" then ReraOf(p)
    else if k == "originalPrice" then OrElse(Get(p, k), Null)
    else if k == "floorPlan" then OrElse(Get(p, k), Str(FloorPlanUrl))
    else if k == "virtualTour" then OrElse(Get(p, k), Str(VirtualTourUrl))
    else if k == "highlights" then HighlightsOf(p)
    else OrElse(Get(p, k), Arr(GenericPlaces))
  }

  /** `enhancedProperty = {...property, status: ..., ...}`: the spread
      record with each key of EnhancedKeys filled. Keys outside that set
      keep their values. */
  function Enhance(p: Record): (e: Record)
    ensures e.Keys == p.Keys + EnhancedKeys
    ensures forall k :: k in p && k !in EnhancedKeys ==> e[k] == p[k]
    ensures forall k :: k in EnhancedKeys ==> e[k] == FilledField(p, k)
  {
    p + map k | k in EnhancedKeys :: FilledField(p, k)
  }

  /** Filling the fallbacks a second time changes nothing. */
  lemma EnhanceIdempotent(p: Record)
    ensures Enhance(Enhance(p)) == Enhance(p)
  {
    RefillFields(p);
    RefillKeepsOthers(p);
  }

  lemma RefillKeepsOthers(p: Record)
    ensures Enhance(Enhance(p)).Keys == Enhance(p).Keys
    ensures forall k :: k in Enhance(p) && k !in EnhancedKeys ==> Enhance(Enhance(p))[k] == Enhance(p)[k]
  {
  }

  lemma RefillFields(p: Record)
    ensures forall k :: k in EnhancedKeys ==> Enhance(Enhance(p))[k] == Enhance(p)[k]
  {
    forall k | k in EnhancedKeys
      ensures Enhance(Enhance(p))[k] == Enhance(p)[k]
    {
      RefillField(p, k);
    }
  }

  /** Filling an already filled field leaves it as it is. */
  lemma RefillField(p: Record, k: string)
    requires k in EnhancedKeys
    ensures FilledField(Enhance(p), k) == Enhance(p)[k]
  {
    var e := Enhance(p);
    assert e[k] == FilledField(p, k);
    if k != "originalPrice" {
      assert Truthy(e[k]);
    }
  }

  /** The default highlights name the location first; the default nearby
      places are the five generic ones, one of each kind in order. */
  lemma EnhanceDefaults(p: Record)
    requires !IsTruthy(Get(p, "highlights")) && !IsTruthy(Get(p, "nearbyPlaces"))
    ensures Enhance(p)["highlights"] == Arr(DefaultHighlights(Text(Get(p, "location"))))
    ensures Enhance(p)["nearbyPlaces"].Arr? && WellFormedPlaces(Enhance(p)["nearbyPlaces"].items)
  {
    assert FilledField(p, "highlights") == HighlightsOf(p);
    GenericPlacesWellFormed();
  }

  /** `nextImage`'s update: `prev === n - 1 ? 0 : prev + 1`, which is the
      slideshow's modular step. */
  function NextImageIndex(i: nat, n: nat): (r: nat)
    requires i < n
    ensures r == Slideshow.NextIndex(i, n)
  {
    if i == n - 1 then 0 else i + 1
  }

  /** `prevImage`'s update: `prev === 0 ? n - 1 : prev - 1`, the
      slideshow's modular step back. */
  function PrevImageIndex(i: nat, n: nat): (r: nat)
    requires i < n
    ensures r == Slideshow.PrevIndex(i, n)
  {
    if i == 0 then n - 1 else i - 1
  }

  /** How many thumbnails `images.slice(1, 5)` renders beside the main
      image. */
  function ThumbnailCount(n: nat): (r: nat)
    ensures r <= 4
    ensures n >= 1 ==> r == if n < 5 then n - 1 else 4
  {
    if n <= 1 then 0 else if n < 5 then n - 1 else 4
  }

  /** The "+N more" overlay on thumbnail `t`: it sits on the last
      thumbnail exactly when some image is in neither the main view nor
      the strip, and N counts the overlaid image and every later one. */
  function MoreOverlay(n: nat, t: nat): (r: Option<nat>)
    requires t < ThumbnailCount(n)
    ensures r.Some? <==> t + 1 == ThumbnailCount(n) && n > 1 + ThumbnailCount(n)
    ensures r.Some? ==> r.value == n - (t + 1) && r.value >= 2
  {
    if t == 3 && n > 5 then Some(n - 4) else None
  }

  /** Some thumbnail carries the overlay exactly when the strip leaves an
      image out, and then the overlay's N is one more than the number of
      images left out. */
  lemma OverlayIffImagesHidden(n: nat)
    ensures (exists t :: 0 <= t < ThumbnailCount(n) && MoreOverlay(n, t).Some?) <==> n > 1 + ThumbnailCount(n)
    ensures n > 1 + ThumbnailCount(n) ==>
      MoreOverlay(n, ThumbnailCount(n) - 1) == Some(n - (1 + ThumbnailCount(n)) + 1)
  {
    if n > 1 + ThumbnailCount(n) {
      assert MoreOverlay(n, ThumbnailCount(n) - 1).Some?;
    }
  }

  /** The inquiry form's fields. */
  datatype InquiryField = Name | Email | Phone | VisitDate | Message

  datatype InquiryForm = InquiryForm(name: string, email: string, phone: string, message: string, visitDate: string) {
    function Get(f: InquiryField): string {
      match f
      case Name => name
      case Email => email
      case Phone => phone
      case VisitDate => visitDate
      case Message => message
    }

    /** `{...contactForm, [f]: v}`: field `f` becomes `v`, the others stay. */
    function With(f: InquiryField, v: string): (r: InquiryForm)
      ensures r.Get(f) == v
      ensures forall g :: g != f ==> r.Get(g) == Get(g)
    {
      match f
      case Name => this.(name := v)
      case Email => this.(email := v)
      case Phone => this.(phone := v)
      case VisitDate => this.(visitDate := v)
      case Message => this.(message := v)
    }
  }

  const EmptyInquiry: InquiryForm := InquiryForm("", "", "", "", "")

  /** The state of the page once the property is found. `imageCount` is
      `enhancedProperty.images.length`. */
  class PropertyView {
    const imageCount: nat
    var currentImageIndex: nat
    var isImageModalOpen: bool
    var contactForm: InquiryForm

    ghost predicate Valid()
      reads this
    {
      currentImageIndex < imageCount
    }

    constructor (imageCount: nat)
      requires imageCount > 0
      ensures Valid() && this.imageCount == imageCount
      ensures currentImageIndex == 0 && !isImageModalOpen && contactForm == EmptyInquiry
    {
      this.imageCount := imageCount;
      currentImageIndex := 0;
      isImageModalOpen := false;
      contactForm := EmptyInquiry;
    }

    method NextImage()
      requires Valid()
      modifies this
      ensures Valid()
      ensures currentImageIndex == Slideshow.NextIndex(old(currentImageIndex), imageCount)
      ensures isImageModalOpen == old(isImageModalOpen) && contactForm == old(contactForm)
    {
      currentImageIndex := NextImageIndex(currentImageIndex, imageCount);
    }

    method PrevImage()
      requires Valid()
      modifies this
      ensures Valid()
      ensures currentImageIndex == Slideshow.PrevIndex(old(currentImageIndex), imageCount)
      ensures isImageModalOpen == old(isImageModalOpen) && contactForm == old(contactForm)
    {
      currentImageIndex := PrevImageIndex(currentImageIndex, imageCount);
    }

    /** A click on thumbnail `t` of `images.slice(1, 5)` shows image `t + 1`. */
    method SelectThumbnail(t: nat)
      requires Valid() && t < ThumbnailCount(imageCount)
      modifies this
      ensures Valid()
      ensures currentImageIndex == t + 1
      ensures 1 <= currentImageIndex < 5
      ensures isImageModalOpen == old(isImageModalOpen) && contactForm == old(contactForm)
    {
      currentImageIndex := t + 1;
    }

    /** A dot in the image modal, one per image. */
    method SelectDot(index: nat)
      requires Valid() && index < imageCount
      modifies this
      ensures Valid()
      ensures currentImageIndex == index
      ensures isImageModalOpen == old(isImageModalOpen) && contactForm == old(contactForm)
    {
      currentImageIndex := index;
    }

    method OpenImageModal()
      requires Valid()
      modifies this
      ensures Valid()
      ensures isImageModalOpen
      ensures currentImageIndex == old(currentImageIndex) && contactForm == old(contactForm)
    {
      isImageModalOpen := true;
    }

    method CloseImageModal()
      requires Valid()
      modifies this
      ensures Valid()
      ensures !isImageModalOpen
      ensures currentImageIndex == old(currentImageIndex) && contactForm == old(contactForm)
    {
      isImageModalOpen := false;
    }

    /** An input's `onChange`: only the edited field changes. */
    method EditInquiry(f: InquiryField, v: string)
      requires Valid()
      modifies this
      ensures Valid()
      ensures contactForm.Get(f) == v
      ensures forall g :: g != f ==> contactForm.Get(g) == old(contactForm).Get(g)
      ensures currentImageIndex == old(currentImageIndex) && isImageModalOpen == old(isImageModalOpen)
    {
      contactForm := contactForm.With(f, v);
    }

    /** `handleContactSubmit`: the form as sent, then every field cleared. */
    method SubmitInquiry() returns (sent: InquiryForm)
      requires Valid()
      modifies this
      ensures Valid()
      ensures sent == old(contactForm)
      ensures forall g :: contactForm.Get(g) == ""
      ensures currentImageIndex == old(currentImageIndex) && isImageModalOpen == old(isImageModalOpen)
    {
      sent := contactForm;
      contactForm := EmptyInquiry;
    }
  }
}
