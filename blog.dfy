/** The blog lookups of app/blog/data.ts:364-374 over the constant list of
    posts. Only `id` and `slug` are kept; title, excerpt, date, category
    and content are inert text. */
module Blog {
  import opened Wrappers

  datatype BlogPost = BlogPost(id: nat, slug: string)

  /** `blogPosts`, in the order they are declared. */
  const BlogPosts: seq<BlogPost> := [
    BlogPost(1, "planning-permission-business-sign"),
    BlogPost(2, "shop-sign-cost-2025"),
    BlogPost(3, "dibond-vs-aluminium-signage")]

  /** `Array.prototype.find` with `post.slug === slug`. */
  function FindBySlug(posts: seq<BlogPost>, slug: string): (r: Option<BlogPost>)
    ensures r.None? <==> forall i :: 0 <= i < |posts| ==> posts[i].slug != slug
    ensures r.Some? ==> exists i ::
      && 0 <= i < |posts| && posts[i] == r.value && r.value.slug == slug
      && (forall j :: 0 <= j < i ==> posts[j].slug != slug)
  {
    if posts == [] then None
    else if posts[0].slug == slug then Some(posts[0])
    else
      var r := FindBySlug(posts[1..], slug);
      assert forall i :: 1 <= i < |posts| ==> posts[i] == posts[1..][i - 1];
      if r.Some? then
        var i :|
          && 0 <= i < |posts[1..]| && posts[1..][i] == r.value && r.value.slug == slug
          && (forall j :: 0 <= j < i ==> posts[1..][j].slug != slug);
        assert posts[i + 1] == r.value;
        r
      else r
  }

  /** `.filter((post) => post.slug !== currentSlug)`, in order. */
  function OtherPosts(posts: seq<BlogPost>, currentSlug: string): (r: seq<BlogPost>)
    ensures |r| <= |posts|
    ensures forall i :: 0 <= i < |r| ==> r[i].slug != currentSlug && r[i] in posts
  {
    if posts == [] then []
    else
      var rest := OtherPosts(posts[1..], currentSlug);
      assert forall i :: 0 <= i < |rest| ==> rest[i] in posts;
      (if posts[0].slug != currentSlug then [posts[0]] else []) + rest
  }

  /** The end index of `.slice(0, limit)` on a list of `n` elements: a
      negative limit counts back from the end. */
  function SliceEnd(n: nat, limit: int): (e: nat)
    ensures e <= n
    ensures limit >= 0 ==> e == if limit < n then limit else n
    ensures limit < 0 ==> e == if n + limit > 0 then n + limit else 0
  {
    if limit >= 0 then (if limit < n then limit else n)
    else if n + limit > 0 then n + limit else 0
  }

  /** `getBlogPostBySlug` */
  function GetBlogPostBySlug(slug: string): Option<BlogPost> {
    FindBySlug(BlogPosts, slug)
  }

  /** `getAllBlogPosts`: the list itself. */
  function GetAllBlogPosts(): (posts: seq<BlogPost>)
    ensures |posts| == 3 && forall i :: 0 <= i < 3 ==> posts[i].id == i + 1
  {
    BlogPosts
  }

  /** `getRelatedPosts(currentSlug, limit = 2)` */
  function GetRelatedPosts(currentSlug: string, limit: int := 2): (r: seq<BlogPost>)
    ensures r <= OtherPosts(BlogPosts, currentSlug)
    ensures |r| == SliceEnd(|OtherPosts(BlogPosts, currentSlug)|, limit)
  {
    var others := OtherPosts(BlogPosts, currentSlug);
    others[..SliceEnd(|others|, limit)]
  }

  // ---------------------------------------------------------------------
  // Properties

  /** The filter keeps exactly the posts whose slug differs, in their order. */
  lemma {:induction false} OtherPostsMembers(posts: seq<BlogPost>, currentSlug: string, p: BlogPost)
    ensures p in OtherPosts(posts, currentSlug) <==> p in posts && p.slug != currentSlug
  {
    if posts != [] {
      OtherPostsMembers(posts[1..], currentSlug, p);
      assert posts == [posts[0]] + posts[1..];
    }
  }

  /** No related post is the current one, and a non-negative limit bounds
      their number. */
  lemma RelatedPostsBounds(currentSlug: string, limit: int)
    ensures forall p :: p in GetRelatedPosts(currentSlug, limit) ==> p.slug != currentSlug
    ensures limit >= 0 ==> |GetRelatedPosts(currentSlug, limit)| <= limit
  {
    var r := GetRelatedPosts(currentSlug, limit);
    var others := OtherPosts(BlogPosts, currentSlug);
    forall p | p in r ensures p.slug != currentSlug {
      var i :| 0 <= i < |r| && r[i] == p;
      assert others[i] == p;
    }
  }

  /** Ids and slugs are distinct. */
  lemma PostsDistinct()
    ensures forall i, j :: 0 <= i < j < |BlogPosts| ==> BlogPosts[i].id != BlogPosts[j].id
    ensures forall i, j :: 0 <= i < j < |BlogPosts| ==> BlogPosts[i].slug != BlogPosts[j].slug
  {
  }

  /** Each listed slug finds its own post, and an unlisted slug finds none. */
  lemma LookupBySlug(slug: string)
    ensures forall i :: 0 <= i < |BlogPosts| ==> GetBlogPostBySlug(BlogPosts[i].slug) == Some(BlogPosts[i])
    ensures (forall i :: 0 <= i < |BlogPosts| ==> BlogPosts[i].slug != slug) ==> GetBlogPostBySlug(slug) == None
  {
    forall i | 0 <= i < |BlogPosts| ensures GetBlogPostBySlug(BlogPosts[i].slug) == Some(BlogPosts[i]) {
      var r := GetBlogPostBySlug(BlogPosts[i].slug);
      var k :|
        && 0 <= k < |BlogPosts| && BlogPosts[k] == r.value && r.value.slug == BlogPosts[i].slug
        && (forall j :: 0 <= j < k ==> BlogPosts[j].slug != BlogPosts[i].slug);
      PostsDistinct();
    }
  }

  /** The related posts shown on a post's page (limit 2): the other two. */
  lemma RelatedOnEachPost()
    ensures GetRelatedPosts("planning-permission-business-sign") == [BlogPosts[1], BlogPosts[2]]
    ensures GetRelatedPosts("shop-sign-cost-2025") == [BlogPosts[0], BlogPosts[2]]
    ensures GetRelatedPosts("dibond-vs-aluminium-signage") == [BlogPosts[0], BlogPosts[1]]
  {
  }

  /** The filter works post by post: it keeps the order of the posts and
      keeps each one at most once. */
  lemma {:induction false} OtherPostsAppend(a: seq<BlogPost>, b: seq<BlogPost>, currentSlug: string)
    ensures OtherPosts(a + b, currentSlug) == OtherPosts(a, currentSlug) + OtherPosts(b, currentSlug)
  {
    if a != [] {
      assert (a + b)[1..] == a[1..] + b;
      OtherPostsAppend(a[1..], b, currentSlug);
    } else {
      assert a + b == b;
    }
  }

  /** A slug no post has excludes nothing. */
  lemma {:induction false} OtherPostsUnmatched(posts: seq<BlogPost>, currentSlug: string)
    requires forall i :: 0 <= i < |posts| ==> posts[i].slug != currentSlug
    ensures OtherPosts(posts, currentSlug) == posts
  {
    if posts != [] {
      OtherPostsUnmatched(posts[1..], currentSlug);
    }
  }

  /** For a slug of no post (a mistyped URL reaches this call before the
      page reports "not found"), the related posts are the first `limit`
      posts; a negative limit drops that many from the end. */
  lemma RelatedLimits(slug: string)
    requires forall i :: 0 <= i < |BlogPosts| ==> BlogPosts[i].slug != slug
    ensures GetRelatedPosts(slug, 2) == BlogPosts[..2]
    ensures GetRelatedPosts(slug, 5) == BlogPosts
    ensures GetRelatedPosts(slug, 0) == []
    ensures GetRelatedPosts(slug, -1) == BlogPosts[..2]
    ensures GetRelatedPosts(slug, -4) == []
    ensures forall limit :: 0 <= limit <= |BlogPosts| ==> GetRelatedPosts(slug, limit) == BlogPosts[..limit]
  {
    OtherPostsUnmatched(BlogPosts, slug);
  }
}
