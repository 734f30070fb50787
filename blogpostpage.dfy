/**
 * A single blog post page: the route's slug picks the first published
 * post with that slug; a missing or unpublished post gives the not-found
 * page.
 */
module BlogPostPage {
  import opened Wrappers
  import opened Seqs
  import opened JsText
  import opened Api
  import BlogPage

  /** The post the lookup accepts for a slug. */
  function Matches(slug: string): BlogPost -> bool {
    (p: BlogPost) => p.slug == slug && p.status == Published
  }

  /**
   * `blogPosts.find(p => p.slug === slug && p.status === 'published')`:
   * the first post in list order that is published under the slug.
   */
  function FindPost(posts: seq<BlogPost>, slug: string): (r: Option<BlogPost>)
    ensures r.Some? ==> r.value in posts && r.value.slug == slug && r.value.status == Published
    ensures r.Some? ==>
      exists i :: 0 <= i < |posts| && posts[i] == r.value
        && forall j :: 0 <= j < i ==> !(posts[j].slug == slug && posts[j].status == Published)
    ensures r.None? <==> forall x :: x in posts ==> !(x.slug == slug && x.status == Published)
  {
    match FindIndex(Matches(slug), posts)
    case None => None
    case Some(i) =>
      assert Matches(slug)(posts[i]);
      assert forall j :: 0 <= j < i ==> !Matches(slug)(posts[j]);
      Some(posts[i])
  }

  datatype PostView = NotFound | Article(post: BlogPost, image: Option<string>, showTags: bool)

  /**
   * The page for a route slug. None stands for the missing post list,
   * which the page reads without a guard.
   */
  function Render(data: SiteData, slug: string): (r: Option<PostView>)
    ensures r.None? <==> data.blogPosts.None?
    ensures forall posts :: data.blogPosts == Some(posts) ==>
      (r == Some(NotFound) <==> FindPost(posts, slug).None?)
    ensures forall posts :: data.blogPosts == Some(posts) && FindPost(posts, slug).Some? ==>
      var post := FindPost(posts, slug).value;
      r == Some(Article(post, if Truthy(post.featuredImage) then post.featuredImage else None, post.tags != []))
  {
    match data.blogPosts
    case None => None
    case Some(posts) =>
      match FindPost(posts, slug)
      case None => Some(NotFound)
      case Some(post) =>
        Some(Article(post, if post.featuredImage.Some? && post.featuredImage.value != "" then post.featuredImage else None, post.tags != []))
  }

  /** A draft never opens: with no published post under the slug, the page is not found even when drafts carry it. */
  lemma DraftIsNotFound(data: SiteData, posts: seq<BlogPost>, slug: string)
    requires data.blogPosts == Some(posts)
    requires forall x :: x in posts && x.slug == slug ==> x.status == Draft
    ensures Render(data, slug) == Some(NotFound)
  {
  }

  /** Every post the blog index lists opens from its own slug, on a post with that slug. */
  lemma ListedPostIsFound(posts: seq<BlogPost>, i: nat)
    requires i < |BlogPage.PublishedPosts(posts)|
    ensures var listed := BlogPage.PublishedPosts(posts)[i];
      FindPost(posts, listed.slug).Some? && FindPost(posts, listed.slug).value.slug == listed.slug
  {
    var listed := BlogPage.PublishedPosts(posts)[i];
    assert listed in BlogPage.PublishedPosts(posts);
  }

  /** No two different published posts share a slug. */
  predicate UniquePublishedSlugs(posts: seq<BlogPost>) {
    forall a, b :: a in posts && b in posts && a.status == Published && b.status == Published && a.slug == b.slug ==> a == b
  }

  /** When no two published posts share a slug, the listed post is the one that opens. */
  lemma ListedPostOpensItself(posts: seq<BlogPost>, i: nat)
    requires i < |BlogPage.PublishedPosts(posts)|
    requires UniquePublishedSlugs(posts)
    ensures var listed := BlogPage.PublishedPosts(posts)[i];
      FindPost(posts, listed.slug) == Some(listed)
  {
    ListedPostIsFound(posts, i);
  }

  /** ASCII capitals to lower case; other characters unchanged. */
  function LowerAscii(c: char): (d: char)
    ensures 'A' <= c <= 'Z' ==> 'a' <= d <= 'z' && d as int == c as int + 32
    ensures !('A' <= c <= 'Z') ==> d == c
  {
    if 'A' <= c <= 'Z' then (c as int + 32) as char else c
  }

  /** Equal up to the case of ASCII letters, as a route pattern matches by default. */
  predicate SameIgnoringCase(a: string, b: string) {
    |a| == |b| && forall i :: 0 <= i < |a| ==> LowerAscii(a[i]) == LowerAscii(b[i])
  }

  const BlogPrefix := "/blog/"

  /**
   * The route `/blog/:slug` matches path with parameter slug: the prefix
   * in any letter case, then slug as one non-empty segment, then nothing
   * but slashes.
   */
  predicate RouteMatches(path: string, slug: string) {
    && |path| >= |BlogPrefix| + |slug|
    && SameIgnoringCase(path[..|BlogPrefix|], BlogPrefix)
    && slug != [] && '/' !in slug
    && path[|BlogPrefix|..|BlogPrefix| + |slug|] == slug
    && forall i :: |BlogPrefix| + |slug| <= i < |path| ==> path[i] == '/'
  }

  /** The length of the longest prefix of s without a slash. */
  function SegmentLength(s: string): (n: nat)
    ensures n <= |s| && '/' !in s[..n]
    ensures n < |s| ==> s[n] == '/'
    decreases |s|
  {
    if s == [] || s[0] == '/' then 0
    else
      var n := 1 + SegmentLength(s[1..]);
      assert s[..n] == [s[0]] + s[1..][..n - 1];
      n
  }

  /** The slug the route `/blog/:slug` takes from a path, or None when the route does not match. */
  function RouteSlug(path: string): (r: Option<string>)
    ensures r.Some? ==> RouteMatches(path, r.value)
  {
    if |path| >= |BlogPrefix| && SameIgnoringCase(path[..|BlogPrefix|], BlogPrefix) then
      var rest := path[|BlogPrefix|..];
      var n := SegmentLength(rest);
      if n > 0 && forall i :: n <= i < |rest| ==> rest[i] == '/' then
        assert forall i :: |BlogPrefix| + n <= i < |path| ==> path[i] == rest[i - |BlogPrefix|];
        Some(rest[..n])
      else None
    else None
  }

  /** A slash-free prefix followed by a slash or by the end is the segment SegmentLength measures. */
  lemma {:induction false} SegmentLengthOf(s: string, seg: string)
    requires |seg| <= |s| && s[..|seg|] == seg && '/' !in seg
    requires |seg| < |s| ==> s[|seg|] == '/'
    ensures SegmentLength(s) == |seg|
  {
    if seg != [] {
      assert s[0] == seg[0];
      assert s[1..][..|seg| - 1] == seg[1..];
      assert '/' !in seg[1..] by {
        forall c | c in seg[1..] ensures c != '/' { assert c in seg; }
      }
      if |seg| < |s| { assert s[1..][|seg| - 1] == s[|seg|]; }
      SegmentLengthOf(s[1..], seg[1..]);
    }
  }

  /** The route takes a unique slug: whenever the pattern matches, RouteSlug returns that slug. */
  lemma RouteSlugComplete(path: string, slug: string)
    requires RouteMatches(path, slug)
    ensures RouteSlug(path) == Some(slug)
  {
    var k := |BlogPrefix|;
    var rest := path[k..];
    assert rest[..|slug|] == slug;
    if |slug| < |rest| { assert rest[|slug|] == path[k + |slug|]; }
    SegmentLengthOf(rest, slug);
    assert forall i :: |slug| <= i < |rest| ==> rest[i] == path[k + i];
  }

  /** The characters a URL carries unchanged: ASCII letters and digits, `-`, `.`, `_` and `~`. */
  predicate IsUnreserved(c: char) {
    ('a' <= c <= 'z') || ('A' <= c <= 'Z') || ('0' <= c <= '9') || c == '-' || c == '.' || c == '_' || c == '~'
  }

  /**
   * Following a card's link opens that card's post whenever its slug is a
   * non-empty run of URL-unreserved characters other than `.` and `..`
   * and no other published post shares it. Other characters are rewritten
   * by URL parsing before routing (a `?` or `#` ends the path, `\` becomes
   * `/`, tabs and line breaks are dropped, `%` starts an escape), and `.`
   * and `..` are resolved away.
   */
  lemma CardLinkOpensPost(data: SiteData, posts: seq<BlogPost>, i: nat)
    requires data.blogPosts == Some(posts)
    requires i < |BlogPage.PublishedPosts(posts)|
    requires var s := BlogPage.PublishedPosts(posts)[i].slug; s != "" && s != "." && s != ".."
    requires var s := BlogPage.PublishedPosts(posts)[i].slug; forall k :: 0 <= k < |s| ==> IsUnreserved(s[k])
    requires UniquePublishedSlugs(posts)
    ensures var listed := BlogPage.PublishedPosts(posts)[i];
      var slug := RouteSlug(BlogPage.PostHref(listed.slug));
      slug == Some(listed.slug) && Render(data, slug.value).Some? && Render(data, slug.value).value.Article?
      && Render(data, slug.value).value.post == listed
  {
    var listed := BlogPage.PublishedPosts(posts)[i];
    var href := BlogPage.PostHref(listed.slug);
    assert forall k :: 0 <= k < |listed.slug| ==> listed.slug[k] != '/';
    assert href[..|BlogPrefix|] == BlogPrefix;
    assert href[|BlogPrefix|..|BlogPrefix| + |listed.slug|] == listed.slug;
    RouteSlugComplete(href, listed.slug);
    ListedPostOpensItself(posts, i);
  }
}
