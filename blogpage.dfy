/**
 * The blog index: the published posts, in order, each as a card linking
 * to its own page, or an empty state when nothing is published.
 */
module BlogPage {
  import opened Wrappers
  import opened Seqs
  import opened JsText
  import opened Api

  predicate IsPublished(post: BlogPost) {
    post.status == Published
  }

  /** `publishedPosts`: the posts with status published, in input order, each as often as in the input. */
  function PublishedPosts(posts: seq<BlogPost>): (r: seq<BlogPost>)
    ensures forall x :: x in r <==> x in posts && x.status == Published
    ensures forall i :: 0 <= i < |r| ==> r[i].status != Draft
    ensures forall x :: multiset(r)[x] == if x.status == Published then multiset(posts)[x] else 0
    ensures |r| <= |posts|
  {
    FilterMultiset(IsPublished, posts);
    Filter(IsPublished, posts)
  }

  /** Publication status alone decides: the listing of a concatenation is the concatenation of the listings. */
  lemma PublishedPostsConcat(a: seq<BlogPost>, b: seq<BlogPost>)
    ensures PublishedPosts(a + b) == PublishedPosts(a) + PublishedPosts(b)
  {
    FilterConcat(IsPublished, a, b);
  }

  /** The link of a post's card: `/blog/` then its slug. */
  function PostHref(slug: string): (r: string)
    ensures StartsWith(r, "/blog/") && r[|"/blog/"|..] == slug
  {
    "/blog/" + slug
  }

  /** One card of the grid; the featured image and the tag row are shown only when present and non-empty. */
  datatype Card = Card(
    post: BlogPost,
    href: string,
    image: Option<string>,
    showTags: bool)

  datatype BlogView = EmptyState | Grid(cards: seq<Card>)

  function PostCard(post: BlogPost): Card {
    Card(post, PostHref(post.slug),
      if post.featuredImage.Some? && post.featuredImage.value != "" then post.featuredImage else None,
      post.tags != [])
  }

  /**
   * The page for the site's data. None stands for the missing post list,
   * which the page reads without a guard. Otherwise: the empty state iff
   * nothing is published, and else one card per published post, in order.
   */
  function Render(data: SiteData): (r: Option<BlogView>)
    ensures r.None? <==> data.blogPosts.None?
    ensures forall posts :: data.blogPosts == Some(posts) ==>
      (r == Some(EmptyState) <==> PublishedPosts(posts) == [])
    ensures forall posts: seq<BlogPost>, cards: seq<Card> :: data.blogPosts == Some(posts) && r == Some(Grid(cards)) ==>
      |cards| == |PublishedPosts(posts)| > 0
      && forall i :: 0 <= i < |cards| ==>
        var post := PublishedPosts(posts)[i];
        && cards[i].post == post
        && cards[i].href == PostHref(post.slug)
        && (cards[i].image.Some? <==> Truthy(post.featuredImage))
        && (cards[i].image.Some? ==> cards[i].image == post.featuredImage)
        && (cards[i].showTags <==> post.tags != [])
  {
    match data.blogPosts
    case None => None
    case Some(posts) =>
      var published := PublishedPosts(posts);
      if |published| == 0 then Some(EmptyState) else Some(Grid(Map(PostCard, published)))
  }
}
