/**
 * The public listing of artists (src/components/Home.jsx): each fetched
 * artist's posts are sorted newest-first, the first three become the
 * "recent posts" preview, and the card's cover layout is chosen from the
 * preview's length.
 */
module Listing {
  import opened Wrappers
  import opened Records

  /** How many posts a card previews. */
  const PreviewSize: nat := 3

  function Min(a: int, b: int): (m: int)
    ensures m <= a && m <= b && (m == a || m == b)
  {
    if a <= b then a else b
  }

  // ---------------------------------------------------------------------
  // Sorting newest-first (`posts.sort((a, b) => date(b) - date(a))`)
  // ---------------------------------------------------------------------

  /** A post no newer than its successor's head extends a newest-first list. */
  lemma ConsNewestFirst(x: Post, s: seq<Post>)
    requires NewestFirst(s)
    requires s != [] ==> x.createdAt >= s[0].createdAt
    ensures NewestFirst([x] + s)
  {
    forall i, j | 0 <= i < j < |[x] + s|
      ensures ([x] + s)[i].createdAt >= ([x] + s)[j].createdAt
    {
      if i == 0 && j > 1 {
        assert s[0].createdAt >= s[j - 1].createdAt;
      }
    }
  }

  /**
   * Inserts `p` in front of the first post that is not newer than it. Placing
   * `p` before posts of equal age keeps the sort stable, as the comparator
   * returns 0 for equal timestamps and the array sort is stable.
   */
  function InsertNewestFirst(p: Post, s: seq<Post>): (r: seq<Post>)
    ensures |r| == |s| + 1
    ensures multiset(r) == multiset(s) + multiset{p}
    ensures r[0] == p || (s != [] && r[0] == s[0])
  {
    if s == [] then
      [p]
    else if p.createdAt >= s[0].createdAt then
      [p] + s
    else
      assert s == [s[0]] + s[1..];
      [s[0]] + InsertNewestFirst(p, s[1..])
  }

  /** Inserting into a newest-first list keeps it newest-first. */
  lemma {:induction false} InsertKeepsNewestFirst(p: Post, s: seq<Post>)
    requires NewestFirst(s)
    ensures NewestFirst(InsertNewestFirst(p, s))
  {
    if s != [] && p.createdAt < s[0].createdAt {
      var rest := InsertNewestFirst(p, s[1..]);
      assert NewestFirst(s[1..]);
      InsertKeepsNewestFirst(p, s[1..]);
      assert s[1..] != [] ==> s[0].createdAt >= s[1].createdAt;
      ConsNewestFirst(s[0], rest);
    } else if s != [] {
      ConsNewestFirst(p, s);
    }
  }

  /** The client-side sort of an artist's posts by `created_at`, descending. */
  function SortNewestFirst(s: seq<Post>): (r: seq<Post>)
    ensures |r| == |s|
    ensures multiset(r) == multiset(s)
    ensures NewestFirst(r)
  {
    if s == [] then
      []
    else
      assert s == [s[0]] + s[1..];
      var rest := SortNewestFirst(s[1..]);
      InsertKeepsNewestFirst(s[0], rest);
      InsertNewestFirst(s[0], rest)
  }

  // ---------------------------------------------------------------------
  // The recent-posts preview
  // ---------------------------------------------------------------------

  lemma PrefixMultiset(s: seq<Post>, k: nat)
    requires k <= |s|
    ensures multiset(s) == multiset(s[..k]) + multiset(s[k..])
  {
    assert s == s[..k] + s[k..];
  }

  /**
   * `artist.posts?.sort(...) || []` followed by `.slice(0, 3)`: an absent
   * posts field gives an empty preview; otherwise the preview holds the
   * newest posts, at most three of them, newest first.
   */
  function RecentPosts(posts: Option<seq<Post>>): (r: seq<Post>)
    ensures posts.None? ==> r == []
    ensures |r| == Min(PreviewSize, |OrElse(posts, [])|)
    ensures NewestFirst(r)
    ensures multiset(r) <= multiset(OrElse(posts, []))
    ensures |OrElse(posts, [])| <= PreviewSize ==> multiset(r) == multiset(OrElse(posts, []))
  {
    var sorted := SortNewestFirst(OrElse(posts, []));
    var k := Min(PreviewSize, |sorted|);
    PrefixMultiset(sorted, k);
    assert k == |sorted| ==> sorted[..k] == sorted;
    sorted[..k]
  }

  /**
   * The preview is the newest part of the artist's posts: every post left out
   * of it is no newer than the oldest post it shows.
   */
  lemma RecentPostsAreNewest(posts: seq<Post>)
    ensures var r := RecentPosts(Some(posts));
      |posts| > 0 ==>
        |r| > 0 &&
        forall p | p in multiset(posts) - multiset(r) :: p.createdAt <= r[|r| - 1].createdAt
  {
    if |posts| > 0 {
      var sorted := SortNewestFirst(posts);
      var k := Min(PreviewSize, |sorted|);
      var r := sorted[..k];
      assert RecentPosts(Some(posts)) == r;
      PrefixMultiset(sorted, k);
      var excluded := multiset(sorted[k..]);
      assert multiset(posts) - multiset(r) == excluded;
      SuffixNoNewer(sorted, k);
      assert r[k - 1] == sorted[k - 1];
      forall p | p in excluded
        ensures p.createdAt <= r[k - 1].createdAt
      {
        assert p in sorted[k..];
      }
    }
  }

  /** In a newest-first list, nothing after position `k - 1` is newer than it. */
  lemma SuffixNoNewer(s: seq<Post>, k: nat)
    requires NewestFirst(s) && 0 < k <= |s|
    ensures forall p | p in s[k..] :: p.createdAt <= s[k - 1].createdAt
  {
    forall p | p in s[k..]
      ensures p.createdAt <= s[k - 1].createdAt
    {
      var j :| 0 <= j < |s| - k && s[k..][j] == p;
      assert s[k + j] == p;
    }
  }

  // ---------------------------------------------------------------------
  // Processing the fetched artist list
  // ---------------------------------------------------------------------

  /** An artist row as the listing query returns it, joined with its posts. */
  datatype FetchedArtist = FetchedArtist(record: Artist, posts: Option<seq<Post>>)

  /**
   * `{ ...artist, recentPosts }`. The sort ran in place on the fetched array,
   * so the kept `posts` field holds the sorted order.
   */
  datatype ListedArtist = ListedArtist(record: Artist, posts: Option<seq<Post>>, recentPosts: seq<Post>)

  /** One step of `data.map(artist => ...)`. */
  function ProcessArtist(a: FetchedArtist): (r: ListedArtist)
    ensures r.record == a.record
    ensures r.posts.Some? <==> a.posts.Some?
    ensures r.posts.Some? ==>
      multiset(r.posts.value) == multiset(a.posts.value) && NewestFirst(r.posts.value) &&
      |r.recentPosts| <= |r.posts.value| && r.recentPosts == r.posts.value[..|r.recentPosts|]
    ensures r.recentPosts == RecentPosts(a.posts)
  {
    match a.posts
    case None => ListedArtist(a.record, None, RecentPosts(None))
    case Some(ps) =>
      var sorted := SortNewestFirst(ps);
      assert RecentPosts(a.posts) == sorted[..Min(PreviewSize, |sorted|)];
      ListedArtist(a.record, Some(sorted), RecentPosts(a.posts))
  }

  /**
   * `data?.map(...) || []`: a missing payload gives the empty list; otherwise
   * the list keeps the fetched length and order, and each artist its fields.
   */
  function ProcessArtists(data: Option<seq<FetchedArtist>>): (r: seq<ListedArtist>)
    ensures |r| == |OrElse(data, [])|
    ensures forall i :: 0 <= i < |r| ==>
      r[i].record == data.value[i].record && r[i].recentPosts == RecentPosts(data.value[i].posts)
    ensures forall i :: 0 <= i < |r| ==> r[i] == ProcessArtist(data.value[i])
  {
    match data
    case None => []
    case Some(d) => seq(|d|, i requires 0 <= i < |d| => ProcessArtist(d[i]))
  }

  // ---------------------------------------------------------------------
  // The cover layout (`renderImageGrid`)
  // ---------------------------------------------------------------------

  /** The four cover layouts of an artist card. */
  datatype Cover =
    | Placeholder                                       // "No posts yet"
    | Single(only: Post)                                // one full-bleed image
    | Halves(left: Post, right: Post)                   // two side by side
    | Triple(large: Post, lowerLeft: Post, lowerRight: Post) // one on top, two below

  /** The posts a cover displays, in reading order. */
  function CoverPosts(c: Cover): (ps: seq<Post>)
    ensures |ps| <= PreviewSize
  {
    match c
    case Placeholder => []
    case Single(p) => [p]
    case Halves(p0, p1) => [p0, p1]
    case Triple(p0, p1, p2) => [p0, p1, p2]
  }

  /**
   * The layout is chosen by preview length alone: 0, 1, 2, or anything else
   * (three, given the preview bound); the cover shows the first posts of the
   * preview in order.
   */
  function CoverFor(a: ListedArtist): (c: Cover)
    ensures c.Placeholder? <==> |a.recentPosts| == 0
    ensures c.Single? <==> |a.recentPosts| == 1
    ensures c.Halves? <==> |a.recentPosts| == 2
    ensures c.Triple? <==> |a.recentPosts| >= 3
    ensures CoverPosts(c) == a.recentPosts[..Min(PreviewSize, |a.recentPosts|)]
  {
    var posts := a.recentPosts;
    if |posts| == 0 then Placeholder
    else if |posts| == 1 then Single(posts[0])
    else if |posts| == 2 then Halves(posts[0], posts[1])
    else Triple(posts[0], posts[1], posts[2])
  }

  /**
   * For a fetched artist with any number of posts, the card's cover shows
   * exactly its preview, with the layout fixed by the post count; with at
   * most three posts every post is on the cover.
   */
  lemma CoverShowsPreview(f: FetchedArtist)
    ensures var c := CoverFor(ProcessArtist(f));
      var ps := OrElse(f.posts, []);
      && CoverPosts(c) == RecentPosts(f.posts)
      && (c.Placeholder? <==> |ps| == 0)
      && (c.Single? <==> |ps| == 1)
      && (c.Halves? <==> |ps| == 2)
      && (c.Triple? <==> |ps| >= 3)
      && (|ps| <= PreviewSize ==> multiset(CoverPosts(c)) == multiset(ps))
  {
    var r := ProcessArtist(f).recentPosts;
    assert r[..Min(PreviewSize, |r|)] == r;
  }

  /**
   * With three posts or more the cover is the large-plus-two layout, and no
   * post left off it is newer than the one in the lower right.
   */
  lemma CoverOmitsOnlyOlder(f: FetchedArtist)
    requires f.posts.Some? && |f.posts.value| >= PreviewSize
    ensures var c := CoverFor(ProcessArtist(f));
      && c.Triple?
      && forall p | p in multiset(f.posts.value) - multiset(CoverPosts(c)) :: p.createdAt <= c.lowerRight.createdAt
  {
    var r := ProcessArtist(f).recentPosts;
    var c := CoverFor(ProcessArtist(f));
    assert r[..Min(PreviewSize, |r|)] == r;
    assert CoverPosts(c) == r;
    RecentPostsAreNewest(f.posts.value);
  }

  // ---------------------------------------------------------------------
  // The listing view's state (`fetchArtists`)
  // ---------------------------------------------------------------------

  /** Every preview on display is short enough for a cover and newest-first. */
  predicate PreviewShape(a: ListedArtist)
  {
    |a.recentPosts| <= PreviewSize && NewestFirst(a.recentPosts)
  }

  /** The `artists` and `loading` state of the listing component. */
  class ListingView {
    var artists: seq<ListedArtist>
    var loading: bool

    ghost predicate Valid()
      reads this
    {
      forall i :: 0 <= i < |artists| ==> PreviewShape(artists[i])
    }

    /** The initial state: no artists, loading. */
    constructor ()
      ensures Valid()
      ensures artists == [] && loading
    {
      artists := [];
      loading := true;
    }

    /**
     * Handles the reply of the joined artists-with-posts read: an error
     * leaves the list as it was, a payload replaces it by its processed
     * form; `loading` is cleared in every case.
     */
    method FetchArtists(reply: Reply<Option<seq<FetchedArtist>>>)
      requires Valid()
      modifies this
      ensures Valid()
      ensures !loading
      ensures reply.Err? ==> artists == old(artists)
      ensures reply.Ok? ==> artists == ProcessArtists(reply.value)
    {
      if reply.Ok? {
        artists := ProcessArtists(reply.value);
      }
      loading := false;
    }

    /**
     * The cover of the card at `i`. On every listed artist the preview has at
     * most three posts, so the covers' cases are exhaustive and a triple shows
     * exactly the preview.
     */
    method CoverAt(i: nat) returns (c: Cover)
      requires Valid() && i < |artists|
      ensures CoverPosts(c) == artists[i].recentPosts
      ensures c.Triple? ==> |artists[i].recentPosts| == PreviewSize
    {
      c := CoverFor(artists[i]);
      assert artists[i].recentPosts[..Min(PreviewSize, |artists[i].recentPosts|)] == artists[i].recentPosts;
    }
  }
}
