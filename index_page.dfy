/**
 * The list logic of the home page (client/src/pages/Index.jsx): the unique
 * tag list, the search-and-tag filter, and the split into featured and
 * regular posts.
 */
module IndexPage {
  import opened Text
  import opened Seqs

  /** The fields of a listed post that the list logic reads. */
  datatype ListedPost = ListedPost(id: string, title: string, excerpt: string, tags: seq<string>, featured: bool)

  /** `posts.flatMap(post => post.tags)`. */
  function FlatTags(posts: seq<ListedPost>): (r: seq<string>)
    ensures forall t :: t in r <==> exists k :: 0 <= k < |posts| && t in posts[k].tags
    decreases |posts|
  {
    if posts == [] then []
    else
      var rest := FlatTags(posts[1..]);
      assert forall k :: 1 <= k < |posts| ==> posts[k] == posts[1..][k - 1];
      posts[0].tags + rest
  }

  /** `allTags`: every tag of every post, each once. */
  function AllTags(posts: seq<ListedPost>): (r: seq<string>)
    ensures forall t :: t in r <==> exists k :: 0 <= k < |posts| && t in posts[k].tags
    ensures NoDuplicates(r)
  {
    Dedup(FlatTags(posts))
  }

  /** Case-insensitive substring search in the title or the excerpt. */
  predicate MatchesSearch(p: ListedPost, searchTerm: string) {
    Contains(Lower(p.title), Lower(searchTerm)) || Contains(Lower(p.excerpt), Lower(searchTerm))
  }

  /** No tag selected, or the post carries the selected one. */
  predicate MatchesTag(p: ListedPost, selectedTag: string) {
    selectedTag == "" || selectedTag in p.tags
  }

  /** The filter callback for a given search term and tag. */
  function Shown(searchTerm: string, selectedTag: string): ListedPost -> bool {
    p => MatchesSearch(p, searchTerm) && MatchesTag(p, selectedTag)
  }

  /** `filteredPosts`. */
  function FilteredPosts(posts: seq<ListedPost>, searchTerm: string, selectedTag: string): seq<ListedPost> {
    Filter(posts, Shown(searchTerm, selectedTag))
  }

  predicate IsFeatured(p: ListedPost) { p.featured }
  predicate IsRegular(p: ListedPost) { !p.featured }

  /** `featuredPosts`. */
  function FeaturedPosts(filtered: seq<ListedPost>): seq<ListedPost> {
    Filter(filtered, IsFeatured)
  }

  /** `regularPosts`. */
  function RegularPosts(filtered: seq<ListedPost>): seq<ListedPost> {
    Filter(filtered, IsRegular)
  }

  /** The search test is "the lower-cased term occurs somewhere in the
      lower-cased title or excerpt". */
  lemma MatchesSearchIff(p: ListedPost, searchTerm: string)
    ensures MatchesSearch(p, searchTerm) <==>
      (exists i: nat :: OccursAt(Lower(p.title), Lower(searchTerm), i)) ||
      (exists i: nat :: OccursAt(Lower(p.excerpt), Lower(searchTerm), i))
  {
    ContainsIff(Lower(p.title), Lower(searchTerm));
    ContainsIff(Lower(p.excerpt), Lower(searchTerm));
  }

  /** The search ignores case on both sides. */
  lemma SearchIgnoresCase(p: ListedPost, searchTerm: string)
    ensures MatchesSearch(p, searchTerm) == MatchesSearch(p, Lower(searchTerm))
    ensures MatchesSearch(p, searchTerm) == MatchesSearch(p.(title := Lower(p.title), excerpt := Lower(p.excerpt)), searchTerm)
  {
    LowerIdempotent(searchTerm);
    LowerIdempotent(p.title);
    LowerIdempotent(p.excerpt);
  }

  lemma LowerIdempotent(s: string)
    ensures Lower(Lower(s)) == Lower(s)
  {
    assert forall i :: 0 <= i < |s| ==> LowerChar(LowerChar(s[i])) == LowerChar(s[i]);
  }

  /** A post is listed exactly when it passes both tests, and the list keeps
      the order of `posts`. */
  lemma FilteredPostsSpec(posts: seq<ListedPost>, searchTerm: string, selectedTag: string)
    ensures forall p :: p in FilteredPosts(posts, searchTerm, selectedTag) <==>
      p in posts && MatchesSearch(p, searchTerm) && MatchesTag(p, selectedTag)
    ensures IsSubsequence(FilteredPosts(posts, searchTerm, selectedTag), posts)
  {
    FilterIsSubsequence(posts, Shown(searchTerm, selectedTag));
  }

  /** With an empty search term and no selected tag, every post is listed, in
      order. */
  lemma {:induction false} EmptyFiltersKeepAll(posts: seq<ListedPost>)
    ensures FilteredPosts(posts, "", "") == posts
    decreases |posts|
  {
    if posts != [] {
      var p := posts[0];
      assert StartsWith(Lower(p.title), Lower(""));
      assert Shown("", "")(p);
      EmptyFiltersKeepAll(posts[1..]);
      assert posts == [p] + posts[1..];
    }
  }

  /** Featured and regular posts split the listed posts: each listed post is
      in exactly one of the two, nothing else is, and both keep the order. */
  lemma FeaturedRegularPartition(filtered: seq<ListedPost>)
    ensures multiset(FeaturedPosts(filtered)) + multiset(RegularPosts(filtered)) == multiset(filtered)
    ensures |FeaturedPosts(filtered)| + |RegularPosts(filtered)| == |filtered|
    ensures forall p :: p in filtered ==> (p in FeaturedPosts(filtered) <==> p !in RegularPosts(filtered))
    ensures IsSubsequence(FeaturedPosts(filtered), filtered) && IsSubsequence(RegularPosts(filtered), filtered)
  {
    FilterPartition(filtered, IsFeatured, IsRegular);
    FilterIsSubsequence(filtered, IsFeatured);
    FilterIsSubsequence(filtered, IsRegular);
  }
}
