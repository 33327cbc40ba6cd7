/** A single post (src/pages/BlogPost.jsx): the lookup of the routed
    post, its related posts, and the author's initials and biography. */
module BlogPost {
  import opened Options
  import opened Lists
  import opened JsText
  import opened Blog

  datatype PostPage = ShowPost(post: Post) | RedirectTo(path: string)

  function HasPostId(k: int): Post -> bool {
    (p: Post) => p.id as int == k
  }

  /** `blogPosts.find(p => p.id === parseInt(id))`, and the redirect to the
      listing when there is none. */
  function Lookup(posts: seq<Post>, idParam: string): (page: PostPage)
    ensures page.RedirectTo? ==> page.path == "/blog"
    ensures page.ShowPost? <==>
      ParseInt(idParam).Some? &&
      exists i :: 0 <= i < |posts| && posts[i].id as int == ParseInt(idParam).value
    ensures page.ShowPost? ==>
      exists i :: 0 <= i < |posts| && posts[i] == page.post && page.post.id as int == ParseInt(idParam).value &&
                  forall j :: 0 <= j < i ==> posts[j].id as int != ParseInt(idParam).value
  {
    match ParseInt(idParam)
    case None => RedirectTo("/blog")
    case Some(k) =>
      match FindFirst(posts, HasPostId(k))
      case None => RedirectTo("/blog")
      case Some(i) => ShowPost(posts[i])
  }

  /** A post's link `/blog/${id}` opens that post when ids are unique. */
  lemma PostLinkOpensPost(posts: seq<Post>, i: nat)
    requires i < |posts|
    requires forall a, b :: 0 <= a < b < |posts| ==> posts[a].id != posts[b].id
    ensures Lookup(posts, PostPath(posts[i].id)[|"/blog/"|..]) == ShowPost(posts[i])
  {
    var k := posts[i].id as int;
    assert PostPath(posts[i].id)[|"/blog/"|..] == IntText(k);
    ParseIntText(k);
    var r := FindFirst(posts, HasPostId(k));
    assert HasPostId(k)(posts[i]);
    assert r == Some(i);
  }

  /** `p => p.id !== post.id && p.category === post.category`. */
  function IsRelated(post: Post): Post -> bool {
    (p: Post) => p.id != post.id && p.category == post.category
  }

  /** `relatedPosts`: the first three other posts of the same category,
      in list order. */
  function RelatedPosts(posts: seq<Post>, post: Post): (r: seq<Post>)
    ensures |r| <= 3
    ensures forall q :: q in r ==> q in posts && q.id != post.id && q.category == post.category
    ensures r <= Filter(posts, IsRelated(post))
    ensures |r| == if |Filter(posts, IsRelated(post))| < 3 then |Filter(posts, IsRelated(post))| else 3
  {
    Take(Filter(posts, IsRelated(post)), 3)
  }

  /** The related section is rendered exactly when some other post shares
      the category. */
  lemma RelatedSectionShown(posts: seq<Post>, post: Post)
    ensures RelatedPosts(posts, post) != [] <==>
      exists q :: q in posts && q.id != post.id && q.category == post.category
  {
    var m := Filter(posts, IsRelated(post));
    if exists q :: q in posts && q.id != post.id && q.category == post.category {
      var q :| q in posts && q.id != post.id && q.category == post.category;
      assert q in m;
    }
  }

  /** `post.author.split(' ').map(n => n[0]).join('')`: the first letter of
      each word; an empty word contributes `undefined`, which joins as
      nothing. */
  function Initials(author: string): (r: string)
    ensures |r| <= |Split(author, ' ')|
  {
    FirstLetters(Split(author, ' '))
  }

  /** The first letter of each word, in order; an empty word gives
      nothing. */
  function FirstLetters(words: seq<string>): (r: string)
    ensures |r| <= |words|
    ensures (forall i :: 0 <= i < |words| ==> words[i] != "") ==> |r| == |words|
  {
    if words == [] then ""
    else (if words[0] == "" then "" else [words[0][0]]) + FirstLetters(words[1..])
  }

  /** When no word is empty, the initials are exactly the words' first
      letters, one per word and in order. */
  lemma {:induction false} FirstLettersOfWords(words: seq<string>)
    requires forall i :: 0 <= i < |words| ==> words[i] != ""
    ensures FirstLetters(words) == seq(|words|, i requires 0 <= i < |words| => words[i][0])
  {
    if words != [] {
      FirstLettersOfWords(words[1..]);
    }
  }

  /** The biography shown for each of the three authors; any other name
      renders nothing. */
  function AuthorBio(author: string): (bio: Option<string>)
    ensures bio.Some? <==> author == "Sarah Johnson" || author == "Michael Chen" || author == "Emily Rodriguez"
  {
    if author == "Sarah Johnson" then Some("CEO & Founder of LuxeEstate with 15+ years of experience in luxury real estate.")
    else if author == "Michael Chen" then Some("Senior Property Consultant specializing in residential and commercial properties.")
    else if author == "Emily Rodriguez" then Some("Marketing Director with expertise in luxury real estate branding and investment strategies.")
    else None
  }

  /** Every post of the list has a biography. */
  lemma EveryAuthorHasBio()
    ensures forall i :: 0 <= i < |BlogPosts| ==> AuthorBio(BlogPosts[i].author).Some?
  {
    forall i | 0 <= i < |BlogPosts|
      ensures BlogPosts[i].author in {"Sarah Johnson", "Michael Chen", "Emily Rodriguez"}
    {
    }
  }
}
