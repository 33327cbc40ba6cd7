/** The project gallery (src/pages/Gallery.jsx): twelve showcase items,
    category filter buttons that carry the number of items they show, and
    an item modal. */
module Gallery {
  import opened Options
  import opened Lists
  import opened JsText
  import PropertyDetails

  datatype GalleryItem = GalleryItem(id: nat, title: string, location: string, category: string, featured: bool)

  /** `galleryItems`; the price and image of each are display text only. */
  const GalleryItems: seq<GalleryItem> := [
    GalleryItem(1, "DLF Phase 1 Luxury Villa", "Gurgaon", "luxury-villas", true),
    GalleryItem(2, "Greater Kailash Penthouse", "New Delhi", "penthouses", true),
    GalleryItem(3, "Sector 62 Modern Complex", "Noida", "modern-apartments", false),
    GalleryItem(4, "Cyber City Commercial Hub", "Gurgaon", "commercial", false),
    GalleryItem(5, "Dwarka Luxury Residence", "New Delhi", "luxury-villas", false),
    GalleryItem(6, "Faridabad Independent Villa", "Faridabad", "luxury-villas", false),
    GalleryItem(7, "Connaught Place Office", "New Delhi", "commercial", false),
    GalleryItem(8, "Vasant Kunj Apartment", "New Delhi", "modern-apartments", false),
    GalleryItem(9, "Golf Course Extension Villa", "Gurgaon", "luxury-villas", true),
    GalleryItem(10, "Sector 137 Penthouse", "Noida", "penthouses", false),
    GalleryItem(11, "MG Road Commercial", "Gurgaon", "commercial", false),
    GalleryItem(12, "Chattarpur Farmhouse", "New Delhi", "luxury-villas", false)
  ]

  /** The ids of the filter buttons, in order; the first shows everything. */
  const CategoryIds: seq<string> := ["all", "luxury-villas", "modern-apartments", "penthouses", "commercial"]

  /** `item => item.category === c`. */
  function InCategory(c: string): GalleryItem -> bool {
    (item: GalleryItem) => item.category == c
  }

  /** `filteredItems`: everything for 'all', otherwise exactly the items of
      the selected category, each as often as in the catalogue. */
  function FilteredItems(items: seq<GalleryItem>, selected: string): (r: seq<GalleryItem>)
    ensures selected == "all" ==> r == items
    ensures selected != "all" ==> forall x :: x in r <==> x in items && x.category == selected
    ensures selected != "all" ==> forall x: GalleryItem :: x.category == selected ==> multiset(r)[x] == multiset(items)[x]
  {
    if selected == "all" then items else Filter(items, InCategory(selected))
  }

  /** `getCategoryCount`: the number on a button is the number of items
      that button then shows. */
  function CategoryCount(items: seq<GalleryItem>, c: string): (n: nat)
    ensures n == |FilteredItems(items, c)|
    ensures n <= |items|
  {
    if c == "all" then |items| else |Filter(items, InCategory(c))|
  }

  /** The sum of the counts of the categories in `cats`. */
  function CountIn(items: seq<GalleryItem>, cats: seq<string>): nat {
    if cats == [] then 0 else |Filter(items, InCategory(cats[0]))| + CountIn(items, cats[1..])
  }

  /** How often `c` occurs in `cats`. */
  function Occurrences(cats: seq<string>, c: string): nat {
    if cats == [] then 0 else (if cats[0] == c then 1 else 0) + Occurrences(cats[1..], c)
  }

  lemma {:induction false} CountInCons(x: GalleryItem, rest: seq<GalleryItem>, cats: seq<string>)
    ensures CountIn([x] + rest, cats) == CountIn(rest, cats) + Occurrences(cats, x.category)
  {
    if cats != [] {
      var items := [x] + rest;
      assert items[0] == x && items[1..] == rest;
      CountInCons(x, rest, cats[1..]);
    }
  }

  lemma {:induction false} OccursOnce(cats: seq<string>, c: string)
    requires forall i, j :: 0 <= i < j < |cats| ==> cats[i] != cats[j]
    requires c in cats
    ensures Occurrences(cats, c) == 1
  {
    if cats[0] == c {
      OccursNot(cats[1..], c);
    } else {
      OccursOnce(cats[1..], c);
    }
  }

  lemma {:induction false} OccursNot(cats: seq<string>, c: string)
    requires c !in cats
    ensures Occurrences(cats, c) == 0
  {
    if cats != [] {
      OccursNot(cats[1..], c);
    }
  }

  /** When the categories are distinct and every item belongs to one of
      them, their counts add up to the whole catalogue: no item is shown
      under two buttons or under none. */
  lemma {:induction false} CountsPartitionItems(items: seq<GalleryItem>, cats: seq<string>)
    requires forall i, j :: 0 <= i < j < |cats| ==> cats[i] != cats[j]
    requires forall i :: 0 <= i < |items| ==> items[i].category in cats
    ensures CountIn(items, cats) == |items|
  {
    if items == [] {
      CountInEmpty(cats);
    } else {
      assert items == [items[0]] + items[1..];
      CountInCons(items[0], items[1..], cats);
      OccursOnce(cats, items[0].category);
      CountsPartitionItems(items[1..], cats);
    }
  }

  lemma {:induction false} CountInEmpty(cats: seq<string>)
    ensures CountIn([], cats) == 0
  {
    if cats != [] {
      CountInEmpty(cats[1..]);
    }
  }

  /** The four category buttons together count the twelve items the
      'All Projects' button counts. */
  lemma GalleryCountsAddUp()
    ensures CountIn(GalleryItems, CategoryIds[1..]) == 12
    ensures CategoryCount(GalleryItems, "all") == 12
  {
    CategoryButtonsDistinct();
    EveryItemHasButton();
    CountsPartitionItems(GalleryItems, CategoryIds[1..]);
  }

  /** The items of category `c` among the first `n`. */
  function CountUpTo(items: seq<GalleryItem>, c: string, n: nat): nat
    requires n <= |items|
  {
    if n == 0 then 0 else CountUpTo(items, c, n - 1) + (if items[n - 1].category == c then 1 else 0)
  }

  lemma {:induction false} CountUpToIsFilterLength(items: seq<GalleryItem>, c: string, n: nat)
    requires n <= |items|
    ensures CountUpTo(items, c, n) == |Filter(items[..n], InCategory(c))|
  {
    if n > 0 {
      assert items[..n] == items[..n - 1] + [items[n - 1]];
      FilterAppend(items[..n - 1], [items[n - 1]], InCategory(c));
      CountUpToIsFilterLength(items, c, n - 1);
    }
  }

  lemma CountIsFilterLength(items: seq<GalleryItem>, c: string)
    ensures CountUpTo(items, c, |items|) == |Filter(items, InCategory(c))|
  {
    CountUpToIsFilterLength(items, c, |items|);
    assert items[..|items|] == items;
  }

  /** The counts over the catalogue, three items at a time. */
  lemma CountsUpTo3()
    ensures CountUpTo(GalleryItems, "luxury-villas", 3) == 1
    ensures CountUpTo(GalleryItems, "modern-apartments", 3) == 1
    ensures CountUpTo(GalleryItems, "penthouses", 3) == 1
    ensures CountUpTo(GalleryItems, "commercial", 3) == 0
  {
  }

  lemma CountsUpTo6()
    ensures CountUpTo(GalleryItems, "luxury-villas", 6) == 3
    ensures CountUpTo(GalleryItems, "modern-apartments", 6) == 1
    ensures CountUpTo(GalleryItems, "penthouses", 6) == 1
    ensures CountUpTo(GalleryItems, "commercial", 6) == 1
  {
    CountsUpTo3();
  }

  lemma CountsUpTo9()
    ensures CountUpTo(GalleryItems, "luxury-villas", 9) == 4
    ensures CountUpTo(GalleryItems, "modern-apartments", 9) == 2
    ensures CountUpTo(GalleryItems, "penthouses", 9) == 1
    ensures CountUpTo(GalleryItems, "commercial", 9) == 2
  {
    CountsUpTo6();
  }

  lemma CountsUpTo12()
    ensures CountUpTo(GalleryItems, "luxury-villas", 12) == 5
    ensures CountUpTo(GalleryItems, "modern-apartments", 12) == 2
    ensures CountUpTo(GalleryItems, "penthouses", 12) == 2
    ensures CountUpTo(GalleryItems, "commercial", 12) == 3
  {
    CountsUpTo9();
  }

  /** The number on the 'Luxury Villas' button. */
  lemma VillaCount()
    ensures CategoryCount(GalleryItems, "luxury-villas") == 5
  {
    CountsUpTo12();
    CountIsFilterLength(GalleryItems, "luxury-villas");
  }

  /** The number on the 'Modern Apartments' button. */
  lemma ApartmentCount()
    ensures CategoryCount(GalleryItems, "modern-apartments") == 2
  {
    CountsUpTo12();
    CountIsFilterLength(GalleryItems, "modern-apartments");
  }

  /** The number on the 'Penthouses' button. */
  lemma PenthouseCount()
    ensures CategoryCount(GalleryItems, "penthouses") == 2
  {
    CountsUpTo12();
    CountIsFilterLength(GalleryItems, "penthouses");
  }

  /** The number on the 'Commercial' button. */
  lemma CommercialCount()
    ensures CategoryCount(GalleryItems, "commercial") == 3
  {
    CountsUpTo12();
    CountIsFilterLength(GalleryItems, "commercial");
  }

  /** The numbers on the four category buttons: 5 villas, 2 apartments,
      2 penthouses and 3 commercial projects, which add up to the twelve
      of 'All Projects'. */
  lemma GalleryCategoryCounts()
    ensures CategoryCount(GalleryItems, "luxury-villas") == 5
    ensures CategoryCount(GalleryItems, "modern-apartments") == 2
    ensures CategoryCount(GalleryItems, "penthouses") == 2
    ensures CategoryCount(GalleryItems, "commercial") == 3
    ensures CategoryCount(GalleryItems, "all") == 5 + 2 + 2 + 3
  {
    VillaCount();
    ApartmentCount();
    PenthouseCount();
    CommercialCount();
  }

  lemma CategoryButtonsDistinct()
    ensures forall i, j :: 0 <= i < j < |CategoryIds[1..]| ==> CategoryIds[1..][i] != CategoryIds[1..][j]
  {
  }

  lemma EveryItemHasButton()
    ensures forall i :: 0 <= i < |GalleryItems| ==> GalleryItems[i].category in CategoryIds[1..]
  {
  }

  /** Filtering keeps the catalogue order: the items of a category taken
      from two parts of the list are those of each part, in turn. */
  lemma FilteredItemsAppend(a: seq<GalleryItem>, b: seq<GalleryItem>, selected: string)
    ensures FilteredItems(a + b, selected) == FilteredItems(a, selected) + FilteredItems(b, selected)
  {
    if selected != "all" {
      FilterAppend(a, b, InCategory(selected));
    }
  }

  /** The page state. `openModal` is defined but no element calls it, so
      the modal is never shown; OpenModal models it all the same. */
  class GalleryPage {
    var selectedCategory: string
    var selectedImage: Option<GalleryItem>
    var isModalOpen: bool

    constructor ()
      ensures selectedCategory == "all" && selectedImage == None && !isModalOpen
      ensures !ModalShown()
    {
      selectedCategory := "all";
      selectedImage := None;
      isModalOpen := false;
    }

    /** A filter button. */
    method SelectCategory(c: string)
      modifies this
      ensures selectedCategory == c
      ensures selectedImage == old(selectedImage) && isModalOpen == old(isModalOpen)
      ensures ModalShown() == old(ModalShown())
    {
      selectedCategory := c;
    }

    method OpenModal(item: GalleryItem)
      modifies this
      ensures selectedImage == Some(item) && isModalOpen
      ensures selectedCategory == old(selectedCategory)
      ensures ModalShown()
    {
      selectedImage := Some(item);
      isModalOpen := true;
    }

    method CloseModal()
      modifies this
      ensures selectedImage == None && !isModalOpen
      ensures selectedCategory == old(selectedCategory)
      ensures !ModalShown()
    {
      isModalOpen := false;
      selectedImage := None;
    }

    /** `isModalOpen && selectedImage`: whether the modal is rendered. */
    predicate ModalShown()
      reads this
    {
      isModalOpen && selectedImage.Some?
    }

    /** The items the grid renders. */
    function Shown(): (r: seq<GalleryItem>)
      reads this
      ensures |r| == CategoryCount(GalleryItems, selectedCategory)
    {
      FilteredItems(GalleryItems, selectedCategory)
    }
  }

  /** `navigateToProperty(item.id)` on an item click: the route of the
      property page, whose parameter reads back as the item's id. */
  function ItemLink(item: GalleryItem): (path: string)
    ensures PropertyDetails.RouteParam(path).Some?
    ensures ParseInt(PropertyDetails.RouteParam(path).value) == Some(item.id as int)
  {
    PropertyDetails.PropertyPathRoundTrip(item.id);
    PropertyDetails.PropertyPath(item.id)
  }
}
