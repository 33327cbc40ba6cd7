# OnePrastha — a verified model of the site's logic

OnePrastha is a React brochure site for real estate in Delhi NCR. Most of
its source is markup and animation. Under the markup sit a few pieces of
logic, and this project models them in Dafny and proves what they
promise:

- **Slideshow cursors.** The hero slideshow of the home page
  (`src/pages/Home.jsx`) and of its older copy (`src/pages/Home_old.jsx`),
  and the image cursor of the property page (`src/pages/PropertyDetails.jsx`).
  Each is an index into a non-empty list that moves forward and back
  with wrap-around, advances on a timer and is set by dots and thumbnails.
- **List derivations.**
  - The category filters and counts of the gallery (`src/pages/Gallery.jsx`).
  - The blog listing with its featured banner (`src/pages/Blog.jsx`).
  - A single post with its lookup, related posts and author initials
    (`src/pages/BlogPost.jsx`).
  - The property listing with its type filter, capitalised labels and
    feature chips (`src/pages/Properties.jsx`).
- **Record defaulting.**
  - The property page fills missing fields of a property record
    (`enhancedProperty`).
  - The data script `scripts/updateProperties.js` writes the same kind of
    fallbacks into the data file. Its nearby places depend on the locality
    that starts the location.
- **Deep links and form state.**
  - The contact page's enquiry form and the links its cards open
    (`src/pages/Contact.jsx`).
  - The footer's section navigation, external links and newsletter form
    (`src/components/Footer.jsx`).
  - The floating chat button (`src/components/WhatsAppButton.jsx`).

Modules:

| module | file | models |
|---|---|---|
| `Options` | options.dfy | `Option` and `Result` |
| `Lists` | lists.dfy | `filter`, `findIndex`, `slice(0, k)`, and a `map` that can throw |
| `JsText` | js_text.dfy | `trim`, `split`, `replace(/\D/g, '')`, number text, `parseInt` |
| `JsValue` | js_value.dfy | JSON values, truthiness, `a \|\| b`, `${v}` |
| `PropertyFields` | property_fields.dfy | the field fallbacks shared by the page and the script |
| `Browser` | browser.dfy | `window.open` calls and navigation effects, as values |
| `Slideshow` | slideshow.dfy | Home.jsx and Home_old.jsx |
| `PropertyDetails` | property_details.dfy | PropertyDetails.jsx |
| `UpdateProperties` | update_properties.dfy | scripts/updateProperties.js |
| `Gallery` | gallery.dfy | Gallery.jsx |
| `Blog` | blog.dfy | Blog.jsx |
| `BlogPost` | blog_post.dfy | BlogPost.jsx |
| `PropertiesPage` | properties_page.dfy | Properties.jsx |
| `Contact` | contact.dfy | Contact.jsx |
| `Footer` | footer.dfy | Footer.jsx |
| `WhatsAppButton` | whatsapp_button.dfy | WhatsAppButton.jsx |

How the model is built:

- Component state that handlers overwrite becomes a class. Its fields are
  set by methods whose contracts give the whole new state. This covers
  `currentSlide`, `currentImageIndex`, the modal flags, the forms,
  `selectedCategory`, `filter`, `email`/`isSubscribed` and `isHovered`.
- Derived values become functions: `filter`, `find`, `slice`, the object
  spreads and the URL templates.
- A property record is a `map<string, Value>`. An absent key is
  `undefined`. JavaScript truthiness and `||` are written out explicitly.
- Browser calls (`window.open`, `navigate`, `setTimeout`) are returned as
  values rather than performed.
- `encodeURIComponent` is a function parameter.

## Model

| member | source | states |
|---|---|---|
| Slideshow.HeroSlideshow.Home | src/pages/Home.jsx:13 | the home slideshow starts on slide 0, within range, with a 5000 ms tick |
| Slideshow.HeroSlideshow.HomeOld | src/pages/Home_old.jsx:9 | the old home slideshow starts on slide 0, within range, with a 6000 ms tick |
| Slideshow.NextIndex | src/pages/Home.jsx:82-84 | the next slide stays in [0, n): the last slide wraps to 0, and any other slide i goes to i + 1 |
| Slideshow.PrevIndex | src/pages/Home.jsx:86-88 | the previous slide stays in [0, n): slide 0 wraps to n - 1, and any other slide i goes to i - 1 |
| Slideshow.HeroSlideshow.NextSlide | src/pages/Home.jsx:82-84 | the right arrow keeps the cursor in range and moves it to NextIndex (src/pages/Home_old.jsx:49-51 has the same step) |
| Slideshow.HeroSlideshow.PrevSlide | src/pages/Home.jsx:86-88 | the left arrow keeps the cursor in range and moves it to PrevIndex (src/pages/Home_old.jsx:53-55 has the same step) |
| Slideshow.NextPrevInverse | src/pages/Home.jsx:82-88 | forward then back, and back then forward, both return to the starting slide |
| Slideshow.HeroSlideshow.Tick | src/pages/Home.jsx:75-80 | the interval callback makes exactly the right arrow's update (likewise src/pages/Home_old.jsx:42-47) |
| Slideshow.Advance | src/pages/Home.jsx:75-80 | any number of steps forward stays in range |
| Slideshow.AdvanceIsModular | src/pages/Home.jsx:75-80 | k steps forward from slide i land on (i + k) mod n, so k ticks from 0 land on k mod n |
| Slideshow.ModSucc | src/pages/Home.jsx:77 | one step from x mod n is (x + 1) mod n |
| Slideshow.ModUnique | src/pages/Home.jsx:77 | a number written q·n + r with 0 <= r < n has remainder r |
| Slideshow.HeroSlideshow.Select | src/pages/Home.jsx:372-395 | a dot or a thumbnail sets the cursor to its index, which comes from the same list and so keeps the cursor in range (the old page's dots and thumbnails, src/pages/Home_old.jsx:517-540, do the same) |
| Slideshow.ActiveFlags | src/pages/Home.jsx:234-243 | one flag per slide, true exactly at the current slide |
| Slideshow.ExactlyOneActive | src/pages/Home.jsx:234-243 | exactly one slide renders as active while the cursor is in range (likewise src/pages/Home_old.jsx:379-388) |
| Slideshow.HeroSlideshow.IsActive | src/pages/Home.jsx:234-243 | a slide is rendered as active exactly when its index is the cursor; Select makes the chosen slide active and OneSlideActive ties the test to ActiveFlags |
| Slideshow.OneSlideActive | src/pages/Home.jsx:234-243 | on a page whose cursor is in range, a slide is rendered as active exactly when ActiveFlags marks it, so exactly one slide, the cursor's, is active |
| Slideshow.CountTrueSingle | src/pages/Home.jsx:234-243 | a flag list true only at index k has exactly one true flag |
| Slideshow.CountTrueNone | src/pages/Home.jsx:234-243 | a flag list with no true flag counts zero |
| PropertyDetails.Lookup | src/pages/PropertyDetails.jsx:28-75 | a property is shown iff the route id parses and some property has that id, and it is the first such property; otherwise the page redirects to /properties |
| PropertyDetails.RouteParam | src/pages/PropertyDetails.jsx:13 | the `:id` parameter is a non-empty segment with no '/', and the path is the prefix followed by it |
| PropertyDetails.PropertyPath | src/App.jsx:34 | the route is "/property/" followed by text that `parseInt` reads back as the id |
| PropertyDetails.PropertyPathRoundTrip | src/pages/PropertyDetails.jsx:28 | the parameter of `/property/${k}` parses back to k |
| PropertyDetails.LinkLeadsToProperty | src/pages/PropertyDetails.jsx:28 | following the link of the first property with id k shows that property |
| PropertyDetails.FilledField | src/pages/PropertyDetails.jsx:78-103 | a truthy field is kept; every filled field is truthy except `originalPrice`, which falls back to null; `nearbyPlaces` falls back to the five generic places, `possession` to "Immediate", `floorPlan` and `virtualTour` to their fixed URLs |
| PropertyDetails.Enhance | src/pages/PropertyDetails.jsx:78-103 | the enhanced record has the record's keys plus the ten filled keys, keeps every other key, and fills each of the ten by FilledField |
| PropertyDetails.EnhanceIdempotent | src/pages/PropertyDetails.jsx:78-103 | filling the fallbacks twice gives the same record as filling them once |
| PropertyDetails.EnhanceDefaults | src/pages/PropertyDetails.jsx:89-102 | the default highlights are five and the first names the location; the default nearby places are five, one of each kind in order |
| PropertyFields.StatusOf | src/pages/PropertyDetails.jsx:81 | `status` is kept when truthy, else `age` when truthy, else "Ready to Move" |
| PropertyFields.FurnishedOf | src/pages/PropertyDetails.jsx:82 | `furnished` is kept when truthy, else "Semi-Furnished" for a villa and "Unfurnished" otherwise |
| PropertyFields.PlotAreaOf | src/pages/PropertyDetails.jsx:83 | `plotArea` is kept when truthy, else "250 sq yards" for a villa and "N/A" otherwise |
| PropertyFields.ReraOf | src/pages/PropertyDetails.jsx:85 | `rera` is kept when truthy, else "RERA" + id + "23456789" |
| PropertyFields.HighlightsOf | src/pages/PropertyDetails.jsx:89-95 | `highlights` is kept when truthy, else the five defaults naming the location |
| PropertyFields.DefaultHighlights | src/pages/PropertyDetails.jsx:89-95 | five highlights, the first "Prime location in " + location |
| PropertyFields.GenericPlacesWellFormed | src/pages/PropertyDetails.jsx:96-102 | the generic nearby places are five, typed Transport, Shopping, Healthcare, Education, Business in that order |
| JsValue.OrElse | src/pages/PropertyDetails.jsx:81-102 | `a \|\| b` is a when a is truthy and b otherwise |
| PropertyDetails.NextImageIndex | src/pages/PropertyDetails.jsx:105-109 | `prev === n - 1 ? 0 : prev + 1` equals the slideshow's modular step |
| PropertyDetails.PrevImageIndex | src/pages/PropertyDetails.jsx:111-115 | `prev === 0 ? n - 1 : prev - 1` equals the modular step back, so it inverts NextImageIndex |
| PropertyDetails.PropertyView.constructor | src/pages/PropertyDetails.jsx:15-25 | the first image, modal closed, and every inquiry field empty |
| PropertyDetails.PropertyView.NextImage | src/pages/PropertyDetails.jsx:105-109 | the image cursor steps forward, stays in range, and nothing else changes |
| PropertyDetails.PropertyView.PrevImage | src/pages/PropertyDetails.jsx:111-115 | the image cursor steps back, stays in range, and nothing else changes |
| PropertyDetails.ThumbnailCount | src/pages/PropertyDetails.jsx:188 | `images.slice(1, 5)` renders min(n, 5) - 1 thumbnails, at most 4 |
| PropertyDetails.PropertyView.SelectThumbnail | src/pages/PropertyDetails.jsx:188-192 | thumbnail t shows image t + 1, which lies in 1..4 and in range |
| PropertyDetails.MoreOverlay | src/pages/PropertyDetails.jsx:188-202 | the "+N more" overlay sits on a thumbnail iff it is the last of the strip and some image is in neither the main view nor the strip; N counts the overlaid image and every later one |
| PropertyDetails.OverlayIffImagesHidden | src/pages/PropertyDetails.jsx:188-202 | some thumbnail carries the overlay exactly when the strip leaves an image out, and then N is one more than the number left out |
| PropertyDetails.PropertyView.SelectDot | src/pages/PropertyDetails.jsx:690-698 | a modal dot sets the cursor to its in-range index and nothing else |
| PropertyDetails.PropertyView.OpenImageModal | src/pages/PropertyDetails.jsx:117-119 | opening sets only the modal flag; the image index and the form are unchanged |
| PropertyDetails.PropertyView.CloseImageModal | src/pages/PropertyDetails.jsx:121-123 | closing clears only the modal flag |
| PropertyDetails.InquiryForm.With | src/pages/PropertyDetails.jsx:588-623 | `{...contactForm, [f]: v}` sets field f to v and leaves the others as they were |
| PropertyDetails.PropertyView.EditInquiry | src/pages/PropertyDetails.jsx:588-623 | an input's onChange changes that field only |
| PropertyDetails.PropertyView.SubmitInquiry | src/pages/PropertyDetails.jsx:125-131 | submit sends the form as it was, then clears all five fields |
| UpdateProperties.BaseLocation | scripts/updateProperties.js:19 | the locality before the first comma contains no comma |
| UpdateProperties.NearbyPlacesOfLocality | scripts/updateProperties.js:19 | white space around the locality and anything after the first comma do not change the result |
| UpdateProperties.LocalityPlaces | scripts/updateProperties.js:21-57 | exactly the five listed localities have a list, each of five places of the five kinds in order |
| UpdateProperties.NearbyPlaces | scripts/updateProperties.js:18-66 | the locality's own list for a listed locality and the generic list for any other, always five places of the five kinds |
| UpdateProperties.NearbyOf | scripts/updateProperties.js:91-92 | a truthy `nearbyPlaces` is kept; otherwise the list comes from the location, and a location that is not text throws a TypeError whose message tells an absent, a null and another non-text location apart |
| UpdateProperties.UpdatedField | scripts/updateProperties.js:77-92 | each written field keeps a truthy value, is otherwise filled, and is always truthy |
| UpdateProperties.Updated | scripts/updateProperties.js:70-92 | the keys are the record's, the defaults' and the six written ones; present keys outside the six keep their values; defaults fill only absent keys |
| UpdateProperties.UpdateProperty | scripts/updateProperties.js:69-93 | the record is updated exactly when it has truthy nearby places or a text location, and otherwise stops the script with the TypeError; an updated record's keys are its own, the defaults' and the six written ones |
| UpdateProperties.UpdatePropertyFields | scripts/updateProperties.js:70-92 | a key the record has keeps its value unless it is a written key with a falsy value; absent default keys get defaults; written keys are truthy; looked-up places are well formed |
| UpdateProperties.UpdateAll | scripts/updateProperties.js:69-96 | the script succeeds iff every record does, with one output record per input record; otherwise it stops with the TypeError of the first failing record |
| UpdateProperties.UpdateAllInOrder | scripts/updateProperties.js:69-93 | the output record at each position is the update of the input record at that position |
| Lists.MapAll | scripts/updateProperties.js:69 | `map` succeeds iff every element succeeds, with the same length and order; otherwise it fails with the first failing element's error |
| UpdateProperties.UpdatedFieldOfWritten | scripts/updateProperties.js:77-92 | on an already written record each written field is left as it is |
| UpdateProperties.UpdatedOfWritten | scripts/updateProperties.js:70-92 | an already written record comes through the spreads and fields unchanged |
| UpdateProperties.UpdatePropertyIdempotent | scripts/updateProperties.js:70-93 | updating an updated record changes nothing |
| UpdateProperties.UpdateAllIdempotent | scripts/updateProperties.js:69-96 | running the script on its own output changes nothing |
| UpdateProperties.PageKeepsScriptFields | scripts/updateProperties.js:77-92 | the property page keeps every field the script wrote |
| UpdateProperties.NearbyAsWritten | scripts/updateProperties.js:59 | the lookup as written also finds members inherited from Object.prototype, and for those the result is not a places list |
| UpdateProperties.InheritedLocalityLosesPlaces | scripts/updateProperties.js:59 | the location "toString, Delhi" would be written without `nearbyPlaces`, where the intended lookup gives the generic list |
| UpdateProperties.LocalitiesNotInherited | scripts/updateProperties.js:21-57 | no listed locality is an inherited member name |
| Gallery.FilteredItems | src/pages/Gallery.jsx:168-170 | 'all' gives every item in order; a category gives exactly its items, each as often as listed |
| Gallery.FilteredItemsAppend | src/pages/Gallery.jsx:168-170 | filtering keeps the catalogue order |
| Gallery.CategoryCount | src/pages/Gallery.jsx:155-158 | a button's count equals the number of items that button shows, 'all' included |
| Gallery.CountsPartitionItems | src/pages/Gallery.jsx:160-166 | with distinct categories covering every item, the category counts add up to the number of items |
| Gallery.CountInCons | src/pages/Gallery.jsx:155-158 | one more item adds one to the count of each category button that matches it |
| Gallery.OccursOnce | src/pages/Gallery.jsx:160-166 | a category listed once among distinct buttons occurs exactly once |
| Gallery.OccursNot | src/pages/Gallery.jsx:160-166 | a category not listed occurs zero times |
| Gallery.CountInEmpty | src/pages/Gallery.jsx:155-158 | an empty catalogue counts zero under every button |
| Gallery.GalleryCountsAddUp | src/pages/Gallery.jsx:43-166 | the four category buttons together count the twelve items of 'All Projects' |
| Gallery.CountUpToIsFilterLength | src/pages/Gallery.jsx:155-158 | counting the first n items one by one gives the filtered length |
| Gallery.VillaCount | src/pages/Gallery.jsx:43-152 | the villa button shows 5 |
| Gallery.ApartmentCount | src/pages/Gallery.jsx:43-152 | the apartment button shows 2 |
| Gallery.PenthouseCount | src/pages/Gallery.jsx:43-152 | the penthouse button shows 2 |
| Gallery.CommercialCount | src/pages/Gallery.jsx:43-152 | the commercial button shows 3 |
| Gallery.GalleryCategoryCounts | src/pages/Gallery.jsx:160-166 | 5 + 2 + 2 + 3 equals the 12 of 'All Projects' |
| Gallery.GalleryPage.constructor | src/pages/Gallery.jsx:12-14 | 'all' is selected, no image is selected, and the modal is closed |
| Gallery.GalleryPage.SelectCategory | src/pages/Gallery.jsx:251 | a button sets the category and leaves the modal state alone |
| Gallery.GalleryPage.OpenModal | src/pages/Gallery.jsx:172-175 | sets the selected image and opens the modal |
| Gallery.GalleryPage.CloseModal | src/pages/Gallery.jsx:177-180 | clears both |
| Gallery.GalleryPage.ModalShown | src/pages/Gallery.jsx:370 | the modal is rendered only when it is open and an image is selected; the page starts without it, OpenModal shows it, CloseModal hides it and a filter button leaves it as it was |
| Gallery.GalleryPage.Shown | src/pages/Gallery.jsx:168-170 | the grid shows as many items as the selected button counts |
| Gallery.ItemLink | src/pages/Gallery.jsx:182-184 | an item click goes to the property route whose parameter parses back to the item's id |
| Blog.FilteredPosts | src/pages/Blog.jsx:86-88 | 'all' gives every post in order; a category gives exactly its posts, each as often as listed |
| Blog.FeaturedPost | src/pages/Blog.jsx:90 | the first featured post of the whole list, whatever the selection, and none iff no post is featured |
| Blog.BannerShown | src/pages/Blog.jsx:119 | the banner is rendered exactly on the 'All Posts' view of a list with some featured post |
| Blog.RegularPostsAsWritten | src/pages/Blog.jsx:91 | under a category the grid is the filtered list, featured posts included; under 'all' it is exactly the posts that are not featured |
| Blog.SecondFeaturedPostHidden | src/pages/Blog.jsx:40 | post 3 is featured, is not the banner post, and is missing from the 'all' grid as written |
| Blog.RegularPosts | src/pages/Blog.jsx:91 | the corrected grid: under 'all', every post except the banner post |
| Blog.AllViewShowsEveryPost | src/pages/Blog.jsx:119 | with the corrected grid the 'all' view shows each post exactly once, in the banner or in the grid |
| Blog.SecondFeaturedPostShown | src/pages/Blog.jsx:40 | with the corrected grid post 3 is shown |
| Blog.BlogPage.Rendered | src/pages/Blog.jsx:119 | the banner renders iff 'all' is selected and a featured post exists; the grid is the intended one, RegularPosts |
| Blog.CategoryName | src/pages/Blog.jsx:203 | the name found for a category id is the one `categories` lists for it, and there is one iff the id is listed |
| Blog.EveryPostHasCategoryName | src/pages/Blog.jsx:77-84 | every post's category has a name, so the badge lookup never fails |
| Blog.PostPath | src/pages/Blog.jsx:218 | a post's link is `/blog/` followed by text that parses back to its id |
| Blog.BlogPage.constructor | src/pages/Blog.jsx:6 | 'all' is selected at first |
| Blog.BlogPage.SelectCategory | src/pages/Blog.jsx:172 | a button selects its category |
| BlogPost.Lookup | src/pages/BlogPost.jsx:198-202 | the first post with the parsed id is shown; with no match the page redirects to /blog |
| BlogPost.PostLinkOpensPost | src/pages/BlogPost.jsx:307 | with unique ids, a post's `/blog/${id}` link opens that post |
| BlogPost.RelatedPosts | src/pages/BlogPost.jsx:213-215 | at most 3 posts, never the current one, all of its category, a prefix of the matches in order, and min(3, matches) of them |
| BlogPost.RelatedSectionShown | src/pages/BlogPost.jsx:295 | the related section renders iff another post shares the category |
| BlogPost.Initials | src/pages/BlogPost.jsx:281 | the first letters of the words `split(' ')` gives, never more letters than words (FirstLettersOfWords gives the letters themselves) |
| BlogPost.FirstLetters | src/pages/BlogPost.jsx:281 | at most one letter per word, and exactly one per word when no word is empty |
| BlogPost.FirstLettersOfWords | src/pages/BlogPost.jsx:281 | with no empty word, the letters are the first letter of each word, in order |
| BlogPost.AuthorBio | src/pages/BlogPost.jsx:286-288 | a biography is rendered exactly for the three named authors, and nothing for any other name |
| BlogPost.EveryAuthorHasBio | src/pages/BlogPost.jsx:286-288 | every post's author has one of the three biographies |
| PropertiesPage.FilteredProperties | src/pages/Properties.jsx:13-15 | 'all' gives every property in order; a type gives exactly the properties of that type, each as often as listed |
| PropertiesPage.FilteredPropertiesAppend | src/pages/Properties.jsx:13-15 | filtering keeps the listing order |
| PropertiesPage.ToUpper | src/pages/Properties.jsx:51 | a lower-case ASCII letter becomes its capital, and any other character is left as it is |
| PropertiesPage.Capitalize | src/pages/Properties.jsx:51 | the length is kept, only the first character is upper-cased, the rest is unchanged, and "" stays "" |
| PropertiesPage.CapitalizeIdempotent | src/pages/Properties.jsx:77 | capitalising twice is capitalising once |
| PropertiesPage.FilterLabels | src/pages/Properties.jsx:41-51 | the four buttons read All, Villa, Apartment, House |
| PropertiesPage.FeatureChips | src/pages/Properties.jsx:108-120 | the first min(2, length) features are shown, with a "+k more" chip iff there are more than 2, and then k = length − 2 |
| PropertiesPage.CardLink | src/pages/Properties.jsx:124-125 | for a numeric id the card links to the property page route of that id |
| PropertiesPage.CardLinkReadsBackId | src/pages/Properties.jsx:124-125 | a card links to the property route whose parameter parses back to the card's id |
| PropertiesPage.ListingPage.constructor | src/pages/Properties.jsx:7 | 'all' is selected at first |
| PropertiesPage.ListingPage.SetFilter | src/pages/Properties.jsx:44 | a button selects its type |
| Contact.ContactPage.constructor | src/pages/Contact.jsx:6-13 | all six fields start empty |
| Contact.ContactForm.With | src/pages/Contact.jsx:15-20 | the named field gets the value and the others stay |
| Contact.ContactPage.HandleInputChange | src/pages/Contact.jsx:15-20 | only the named field changes |
| Contact.ContactPage.HandleSubmit | src/pages/Contact.jsx:22-27 | submit hands over the form and changes nothing, so the form is not reset |
| Contact.HandleAction | src/pages/Contact.jsx:30-48 | each of the four action types opens its link with its target, and an unknown type opens nothing |
| Contact.ActionLinksCarryValue | src/pages/Contact.jsx:35-40 | the call link is "tel:" + value and the email link carries the value verbatim after "mailto:" |
| Contact.ChatLinkCarriesDigits | src/pages/Contact.jsx:41-44 | the chat link's number is exactly the value's digits, in order |
| Contact.EveryCardHandled | src/pages/Contact.jsx:236 | every contact card's action type opens something |
| Browser.WaMeReadsBack | src/pages/Contact.jsx:42-43 | a chat link reads back: the prefix, then only and all the digits, then the text after "?text=" |
| JsText.DigitsOnly | src/pages/Contact.jsx:42 | `replace(/\D/g, '')` keeps exactly the digits, in order |
| JsText.DigitsOnlyAppend | src/components/WhatsAppButton.jsx:10 | the digits of a concatenation are the digits of each part, in turn |
| JsText.DigitsOnlyOfDigits | src/components/WhatsAppButton.jsx:10 | a string of digits is kept whole |
| Footer.SectionNavigation | src/components/Footer.jsx:14-34 | already on the home page a home section is only scrolled to; otherwise the router navigates to the path first, then, as a single timer of 500 ms, scrolls to the section, or, as a single timer of 100 ms, to the top when there is no section |
| Footer.SectionNavigationNavigatesIffElsewhere | src/components/Footer.jsx:15-19 | the handler navigates iff it is not the home-page scroll case |
| Footer.ExternalLink | src/components/Footer.jsx:78-94 | the whatsapp, phone and email links in a new tab without opener or referrer, and nothing for an unknown type |
| Footer.ExternalLinksCarryValue | src/components/Footer.jsx:81-86 | the chat link's number is exactly the value's digits, and the phone link is "tel:" + value |
| Footer.Newsletter.constructor | src/components/Footer.jsx:6-7 | the email is empty and the form is not yet subscribed |
| Footer.Newsletter.SetEmail | src/components/Footer.jsx:258 | typing sets the email only |
| Footer.Newsletter.Subscribe | src/components/Footer.jsx:97-105 | an email that is blank after trimming changes nothing; any other subscribes, clears the email, and starts the 3000 ms timer |
| Footer.Newsletter.SubscriptionTimerFired | src/components/Footer.jsx:103 | the timer ends the confirmation and keeps the email |
| Footer.Newsletter.ButtonDisabled | src/components/Footer.jsx:265 | the subscribe button is disabled exactly while the confirmation is shown: not at first, from an accepted subscription until the reset timer fires, and a blank address leaves it as it was |
| Footer.SubscribeGuard | src/components/Footer.jsx:99 | `email.trim()` is falsy exactly for emails made of white space |
| JsText.BlankIffWhiteSpace | src/components/Footer.jsx:99 | a string trims to "" iff all its characters are white space |
| JsText.Trim | scripts/updateProperties.js:19 | the trimmed text neither starts nor ends with white space |
| JsText.TrimRemovesOnlyWhiteSpace | scripts/updateProperties.js:19 | `trim` removes only white space: the result sits in the text between two runs of white space |
| JsText.TrimIgnoresPadding | scripts/updateProperties.js:19 | padding on either side of a text without edge white space is removed |
| JsText.BeforeFirst | scripts/updateProperties.js:19 | `split(',')[0]` is the longest prefix before the first comma |
| JsText.BeforeFirstOfJoined | scripts/updateProperties.js:19 | the text before the first separator of a + sep + b is a, when a has no separator |
| JsText.Split | src/pages/BlogPost.jsx:281 | `split(' ')` gives at least one piece, the first being the text before the first separator, and no piece contains the separator |
| JsText.JoinSplit | src/pages/BlogPost.jsx:281 | joining the pieces of a split with the separator gives back the text |
| JsText.ParseInt | src/pages/PropertyDetails.jsx:28 | `parseInt(id)` with no radix: leading white space skipped, an optional sign, hexadecimal after 0x, decimal otherwise, up to the first non-digit; NaN (None) when no digit is read |
| JsText.ParseIntSkipsWhiteSpace | src/pages/PropertyDetails.jsx:28 | white space in front of the numeral does not change what `parseInt` reads |
| JsText.ParseIntText | src/pages/PropertyDetails.jsx:28 | `parseInt` reads the decimal text of any integer back as that integer |
| WhatsAppButton.Click | src/components/WhatsAppButton.jsx:8-13 | the chat link opens in a new tab without opener or referrer; it is "https://wa.me/", then only and all the digits of the number, then the encoded constant message |
| WhatsAppButton.ClickIgnoresPunctuation | src/components/WhatsAppButton.jsx:9-11 | numbers with the same digits open the same link, and the message depends on no input |
| WhatsAppButton.ChatButton.constructor | src/components/WhatsAppButton.jsx:6 | the button starts unhovered and without a tooltip |
| WhatsAppButton.ChatButton.HoverStart | src/components/WhatsAppButton.jsx:19 | hovering shows the tooltip |
| WhatsAppButton.ChatButton.HoverEnd | src/components/WhatsAppButton.jsx:20 | leaving hides it |
| WhatsAppButton.ChatButton.TooltipShown | src/components/WhatsAppButton.jsx:39 | the tooltip is rendered exactly while the button is hovered |

## Left out

- Timers, intervals and their cleanup are not modelled as running code.
  - An auto-advance tick is a plain method call, `Slideshow.HeroSlideshow.Tick`.
  - The footer's delayed scrolls are `After(ms, …)` values.
  - The newsletter's reset is a separate method that the caller invokes when the returned 3000 ms have passed.
  - The pages have no pause, restart, destroy, or range error on direct selection, so neither does the model.
- Slideshow.HeroSlideshow.Select requires an in-range index. The source's `setCurrentSlide(index)` checks nothing, but its only callers map over the same list.
- The slideshow constructors require at least one slide. With no slide, `% 0` gives NaN in JavaScript.
- PropertyDetails.PropertyView.constructor requires at least one image. The property page steps its cursor with ternaries, not `%` (src/pages/PropertyDetails.jsx:105-109 and 111-115). `images` is taken from the record as it is. With an empty image list, `nextImage` moves the cursor 0, 1, 2, … and `prevImage` moves it to −1: it leaves the list. The model keeps the cursor in range and so excludes that case.
- Animation, scroll-linked transforms, the loading screen's random progress and decorative particles are presentation and floating point.
- `pricePerSqFt` is left out: it is float division and rounding.
- JsValue.Value holds integers only. JSON numbers with fractions, NaN and the 2^53 precision limit of `parseInt` are not represented.
- JsText.ParseInt has no precision limit, for the same reason.
- The DOM search of `scrollToSection` (`querySelector`/`scrollIntoView`) is left out; only the requested scroll is modelled.
- These calls are returned as values and not performed: `window.open`, `navigate`, `alert` and `console.log`.
- The file read and write of the data script are left out. `UpdateProperties.UpdateAll` maps the parsed list to the list written back.
- The data script's input is taken to be an array of objects; an element of another JSON type is not modelled.
- UpdateProperties.NearbyOf uses the intended lookup `NearbyPlaces`, not the lookup as written (`NearbyAsWritten`, see Findings). For a location whose locality is an inherited member name such as "toString", the script as written gives no `nearbyPlaces` key, while the model gives the generic five.
- UpdateProperties.UpdateProperty, UpdateProperties.UpdatePropertyFields and UpdateProperties.UpdateAll build on that intended lookup. Their statements about the written keys and places do not hold of the script as written for such locations.
- UpdateProperties.UpdateAllIdempotent, UpdateProperties.UpdatePropertyIdempotent and UpdateProperties.PageKeepsScriptFields are likewise proved of the intended lookup.
- Blog.BlogPage.Rendered renders the intended grid `RegularPosts`, not the grid as written (`RegularPostsAsWritten`, see Findings). Under 'All Posts' the page as written shows posts 2, 4, 5 and 6 in the grid; the model shows 2, 3, 4, 5 and 6.
- `JSON.stringify` key order is not modelled, because records are maps.
- `encodeURIComponent` is a function parameter whose behaviour is not modelled.
- The mailto and tel links are plain concatenations. They are not claimed to conform to RFC 6068 or RFC 3966.
- PropertiesPage.ToUpper covers ASCII letters only; other letters that `toUpperCase` changes are kept as they are.
- BlogPost.Initials is not evaluated on the three concrete authors; `BlogPost.FirstLettersOfWords` gives the first-letter property for every name without empty words.
- The gallery modal is modelled, but no element of the page calls `openModal`, so it is never shown.
- The gallery's prices and images are display text and are not modelled.
- The blog HTML bodies and the post metadata other than id, title, category, author and featured are opaque display data.
- The two post lists are one constant, `Blog.BlogPosts`. `src/pages/Blog.jsx` and `src/pages/BlogPost.jsx` each carry a copy, and the modelled fields agree.
- These files hold no modelled logic and are not part of this model:
  - the navigation bars `Navbar.jsx` and `Navbar-new.jsx`;
  - the static pages;
  - the routing table;
  - the data aggregation;
  - the build configuration.

## Findings

| source | as written | input that shows it | evidently intended | confidence | as-written member | corrected member |
|---|---|---|---|---|---|---|
| scripts/updateProperties.js:59 | `locationMappings[baseLocation]` also finds members inherited from `Object.prototype`; they are truthy, so the generic list is skipped and a function or `{}` is written | a property whose location is "toString, Delhi" gets no `nearbyPlaces` key (`JSON.stringify` drops functions) | only the five listed localities map to their lists, and every other location gets the generic five | high, not executed | UpdateProperties.NearbyAsWritten | UpdateProperties.NearbyPlaces |
| src/pages/Blog.jsx:91 | under 'All Posts' the grid drops every featured post, but the banner shows only the first one | post 3 is featured and is not post 1, so it appears in neither the banner nor the grid (`Blog.SecondFeaturedPostHidden`) | the grid leaves out only the post shown in the banner (`Blog.AllViewShowsEveryPost`, `Blog.SecondFeaturedPostShown`) | medium, not executed | Blog.RegularPostsAsWritten | Blog.RegularPosts |
