/** The blog listing (src/pages/Blog.jsx): six posts, category buttons,
    a featured banner on the 'All Posts' view and a grid of the other
    posts. */
module Blog {
  import opened Options
  import opened Lists
  import opened JsText

  /** A post; excerpt, date, read time, image and body are display text. */
  datatype Post = Post(id: nat, title: string, category: string, author: string, featured: bool)

  /** `blogPosts` (src/pages/BlogPost.jsx repeats the same list). */
  const BlogPosts: seq<Post> := [
    Post(1, "2024 Real Estate Market Trends: What Buyers Need to Know", "market-trends", "Sarah Johnson", true),
    Post(2, "First-Time Homebuyer's Complete Guide", "buying-guide", "Michael Chen", false),
    Post(3, "Luxury Home Investment Strategies", "investment", "Emily Rodriguez", true),
    Post(4, "Top 10 Neighborhoods to Watch in 2024", "market-trends", "Sarah Johnson", false),
    Post(5, "Sustainable Living: Eco-Friendly Home Features", "lifestyle", "Michael Chen", false),
    Post(6, "Selling Your Home: Staging Tips That Work", "selling-guide", "Emily Rodriguez", false)
  ]

  datatype Category = Category(id: string, name: string)

  /** `categories`: the buttons, and the names shown on the post cards. */
  const Categories: seq<Category> := [
    Category("all", "All Posts"),
    Category("market-trends", "Market Trends"),
    Category("buying-guide", "Buying Guide"),
    Category("selling-guide", "Selling Guide"),
    Category("investment", "Investment"),
    Category("lifestyle", "Lifestyle")
  ]

  function InPostCategory(c: string): Post -> bool {
    (p: Post) => p.category == c
  }

  function IsFeatured(): Post -> bool {
    (p: Post) => p.featured
  }

  /** `filteredPosts`: all posts for 'all', otherwise exactly those of the
      selected category, each as often as in the list. */
  function FilteredPosts(posts: seq<Post>, selected: string): (r: seq<Post>)
    ensures selected == "all" ==> r == posts
    ensures selected != "all" ==> forall p :: p in r <==> p in posts && p.category == selected
    ensures forall p: Post :: (selected == "all" || p.category == selected) ==> multiset(r)[p] == multiset(posts)[p]
  {
    if selected == "all" then posts else Filter(posts, InPostCategory(selected))
  }

  /** `featuredPost`: the first featured post of the whole list, if any. */
  function FeaturedPost(posts: seq<Post>): (r: Option<Post>)
    ensures r.Some? <==> exists i :: 0 <= i < |posts| && posts[i].featured
    ensures r.Some? ==> exists i :: 0 <= i < |posts| && posts[i] == r.value && r.value.featured &&
                                    forall j :: 0 <= j < i ==> !posts[j].featured
  {
    match FindFirst(posts, IsFeatured())
    case None => None
    case Some(i) => Some(posts[i])
  }

  /** The featured banner is rendered only on the 'All Posts' view. */
  predicate BannerShown(posts: seq<Post>, selected: string)
    ensures BannerShown(posts, selected) <==>
      selected == "all" && exists i :: 0 <= i < |posts| && posts[i].featured
  {
    selected == "all" && FeaturedPost(posts).Some?
  }

  /** The keep test of `regularPosts` as written. */
  function RegularAsWritten(selected: string): Post -> bool {
    (p: Post) => !p.featured || selected != "all"
  }

  /** `regularPosts` as written: on the 'All Posts' view every featured
      post is left out of the grid, not only the one in the banner. */
  function RegularPostsAsWritten(posts: seq<Post>, selected: string): (r: seq<Post>)
    ensures selected != "all" ==> r == FilteredPosts(posts, selected)
    ensures selected == "all" ==> forall p :: p in r <==> p in posts && !p.featured
  {
    var shown := FilteredPosts(posts, selected);
    if selected == "all" then Filter(shown, RegularAsWritten(selected))
    else
      FilterAll(shown, RegularAsWritten(selected));
      Filter(shown, RegularAsWritten(selected))
  }

  /** Post 3 is featured but is not the banner post, so on the 'All Posts'
      view it is neither in the banner nor in the grid. */
  lemma SecondFeaturedPostHidden()
    ensures BlogPosts[2].featured && FeaturedPost(BlogPosts) == Some(BlogPosts[0])
    ensures BannerShown(BlogPosts, "all") && BlogPosts[2] != FeaturedPost(BlogPosts).value
    ensures BlogPosts[2] !in RegularPostsAsWritten(BlogPosts, "all")
  {
    assert IsFeatured()(BlogPosts[0]);
  }

  /** The keep test of the grid that leaves out only the banner post. */
  function NotBanner(posts: seq<Post>, selected: string): Post -> bool {
    (p: Post) => selected != "all" || FeaturedPost(posts) != Some(p)
  }

  /** `regularPosts` as intended: the grid of the current view without
      the post the banner already shows. */
  function RegularPosts(posts: seq<Post>, selected: string): (r: seq<Post>)
    ensures selected != "all" ==> r == FilteredPosts(posts, selected)
    ensures selected == "all" ==> forall p :: p in r <==> p in posts && Some(p) != FeaturedPost(posts)
  {
    var shown := FilteredPosts(posts, selected);
    if selected == "all" then Filter(shown, NotBanner(posts, selected))
    else
      FilterAll(shown, NotBanner(posts, selected));
      Filter(shown, NotBanner(posts, selected))
  }

  /** On the 'All Posts' view every post is shown once: the banner post
      in the banner only, every other post in the grid as often as it is
      listed. */
  lemma AllViewShowsEveryPost(posts: seq<Post>)
    ensures forall p :: p in posts ==> (BannerShown(posts, "all") && FeaturedPost(posts) == Some(p)) || p in RegularPosts(posts, "all")
    ensures FeaturedPost(posts).Some? ==> FeaturedPost(posts).value !in RegularPosts(posts, "all")
    ensures forall p :: Some(p) != FeaturedPost(posts) ==> multiset(RegularPosts(posts, "all"))[p] == multiset(posts)[p]
  {
  }

  /** With the intended grid, post 3 is on the 'All Posts' view. */
  lemma SecondFeaturedPostShown()
    ensures BlogPosts[2] in RegularPosts(BlogPosts, "all")
  {
    var p := BlogPosts[2];
    assert FeaturedPost(BlogPosts) == Some(BlogPosts[0]) by {
      assert IsFeatured()(BlogPosts[0]);
    }
    assert p.id != BlogPosts[0].id;
    assert p in BlogPosts;
  }

  /** `categories.find(cat => cat.id === c)?.name`. */
  function CategoryName(c: string): (r: Option<string>)
    ensures r.Some? <==> exists i :: 0 <= i < |Categories| && Categories[i].id == c
    ensures r.Some? ==> exists i :: 0 <= i < |Categories| && Categories[i] == Category(c, r.value)
  {
    match FindFirst(Categories, (cat: Category) => cat.id == c)
    case None => None
    case Some(i) => Some(Categories[i].name)
  }

  /** Every post's card shows a category name (the optional chain never
      yields `undefined` for this list). */
  lemma EveryPostHasCategoryName()
    ensures forall i :: 0 <= i < |BlogPosts| ==> CategoryName(BlogPosts[i].category).Some?
  {
    assert Categories[1].id == "market-trends" && Categories[2].id == "buying-guide" &&
      Categories[3].id == "selling-guide" && Categories[4].id == "investment" &&
      Categories[5].id == "lifestyle";
  }

  /** The route of a post: `/blog/${id}`. */
  function PostPath(id: int): (path: string)
    ensures |path| > |"/blog/"| && path[..|"/blog/"|] == "/blog/"
    ensures ParseInt(path[|"/blog/"|..]) == Some(id)
  {
    IntTextShape(id);
    ParseIntText(id);
    assert ("/blog/" + IntText(id))[|"/blog/"|..] == IntText(id);
    "/blog/" + IntText(id)
  }

  /** The listing's state: the selected category. */
  class BlogPage {
    var selectedCategory: string

    constructor ()
      ensures selectedCategory == "all"
    {
      selectedCategory := "all";
    }

    /** A category button. */
    method SelectCategory(c: string)
      modifies this
      ensures selectedCategory == c
    {
      selectedCategory := c;
    }

    /** What the page renders, with the grid as intended (RegularPosts):
        the banner post if shown, and the grid. The grid as written is
        RegularPostsAsWritten. */
    function Rendered(): (r: (Option<Post>, seq<Post>))
      reads this
      ensures r.0.Some? <==> BannerShown(BlogPosts, selectedCategory)
      ensures r.1 == RegularPosts(BlogPosts, selectedCategory)
    {
      (if BannerShown(BlogPosts, selectedCategory) then FeaturedPost(BlogPosts) else None,
       RegularPosts(BlogPosts, selectedCategory))
    }
  }
}
