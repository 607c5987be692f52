/**
 * The single-post page (client/src/pages/BlogPost.jsx): the fetch lifecycle,
 * which view is rendered, the author fallbacks, and adding a comment.
 */
module BlogPostPage {
  import opened Wrappers
  import opened Text

  /** A comment as the page reads it: its text and `author?.name`. */
  datatype Comment = Comment(text: string, authorName: Option<string>)

  /** The fields of a fetched post that the page's logic reads or keeps;
      `comments` is absent on a post that never had any. */
  datatype ViewedPost = ViewedPost(title: string, excerpt: string, authorName: Option<string>,
                                   comments: Option<seq<Comment>>)

  const LoadError := "Error loading post"
  const UnknownAuthor := "Unknown Author"
  const Anonymous := "Anonymous"

  /** `post.author?.name || "Unknown Author"`. */
  function AuthorName(p: ViewedPost): (r: string)
    ensures r != ""
    ensures Truthy(p.authorName) ==> r == p.authorName.value
    ensures !Truthy(p.authorName) ==> r == UnknownAuthor
  {
    if Truthy(p.authorName) then p.authorName.value else UnknownAuthor
  }

  /** `comment.author?.name || "Anonymous"`. */
  function CommentAuthorName(c: Comment): (r: string)
    ensures r != ""
    ensures Truthy(c.authorName) ==> r == c.authorName.value
    ensures !Truthy(c.authorName) ==> r == Anonymous
  {
    if Truthy(c.authorName) then c.authorName.value else Anonymous
  }

  /** `prev.comments || []`. */
  function CommentsOf(p: ViewedPost): seq<Comment> {
    p.comments.GetOr([])
  }

  /** `{ ...prev, comments: [...(prev.comments || []), c] }`: the comment goes
      last, the earlier ones stay in order, and no other field changes. */
  function WithComment(p: ViewedPost, c: Comment): (r: ViewedPost)
    ensures r.comments.Some? && |r.comments.value| == |CommentsOf(p)| + 1
    ensures r.comments.value[..|CommentsOf(p)|] == CommentsOf(p) && r.comments.value[|CommentsOf(p)|] == c
    ensures r.(comments := p.comments) == p
  {
    p.(comments := Some(CommentsOf(p) + [c]))
  }

  /** Adding the comments of `cs` one after another. */
  function AddAll(p: ViewedPost, cs: seq<Comment>): ViewedPost
    decreases |cs|
  {
    if cs == [] then p else AddAll(WithComment(p, cs[0]), cs[1..])
  }

  /** Adding comments one after another lists them in the order added. */
  lemma {:induction false} CommentsInOrder(p: ViewedPost, cs: seq<Comment>)
    ensures CommentsOf(AddAll(p, cs)) == CommentsOf(p) + cs
    ensures AddAll(p, cs).(comments := p.comments) == p
    decreases |cs|
  {
    if cs != [] {
      var q := WithComment(p, cs[0]);
      CommentsInOrder(q, cs[1..]);
      assert CommentsOf(q) == CommentsOf(p) + [cs[0]];
      assert CommentsOf(p) + [cs[0]] + cs[1..] == CommentsOf(p) + cs;
    }
  }

  /** What the page renders. */
  datatype PageView = LoadingView | ErrorView | NotFoundView | PostView(post: ViewedPost)

  /** Loading wins over an error, an error over a missing post, and only a
      present post with neither shows the post. */
  function ViewOf(loading: bool, error: Option<string>, post: Option<ViewedPost>): (v: PageView)
    ensures loading ==> v == LoadingView
    ensures !loading && Truthy(error) ==> v == ErrorView
    ensures !loading && !Truthy(error) && post.None? ==> v == NotFoundView
    ensures v.PostView? <==> !loading && !Truthy(error) && post.Some?
    ensures v.PostView? ==> post == Some(v.post)
  {
    if loading then LoadingView
    else if Truthy(error) then ErrorView
    else if post.None? then NotFoundView
    else PostView(post.value)
  }

  /** How `getPost(id)` ended: a post (or nothing), or a thrown error. */
  datatype FetchOutcome = Fetched(post: Option<ViewedPost>) | FetchFailed

  /** How `addComment` ended. */
  datatype CommentOutcome = Added(comment: Comment) | AddFailed

  class Page {
    /** The `:id` route parameter. */
    const id: Option<string>
    var post: Option<ViewedPost>
    var loading: bool
    var error: Option<string>
    var commentText: string
    /** The route parameter of each `getPost` call, oldest first. */
    var fetchCalls: seq<string>
    /** The text of each `addComment` call, oldest first. */
    var commentCalls: seq<string>

    constructor (id: Option<string>)
      ensures this.id == id && post == None && loading && error == None && commentText == ""
      ensures fetchCalls == [] && commentCalls == []
      ensures View() == LoadingView
    {
      this.id := id;
      post := None;
      loading := true;
      error := None;
      commentText := "";
      fetchCalls := [];
      commentCalls := [];
    }

    function View(): PageView
      reads this
    {
      ViewOf(loading, error, post)
    }

    /** The effect on mount: `fetchPost()` starts only when there is an id;
        without one the page stays on its loading view. */
    method Mount() returns (started: bool)
      modifies this
      ensures started <==> Truthy(id)
      ensures started ==> loading && fetchCalls == old(fetchCalls) + [id.value]
      ensures !started ==> fetchCalls == old(fetchCalls) && loading == old(loading)
      ensures post == old(post) && error == old(error) && commentText == old(commentText)
      ensures commentCalls == old(commentCalls)
    {
      started := false;
      if Truthy(id) {
        loading := true;
        fetchCalls := fetchCalls + [id.value];
        started := true;
      }
    }

    /** The rest of `fetchPost`: the post is stored, or the error set, and
        loading ends either way. */
    method CompleteFetch(outcome: FetchOutcome)
      modifies this
      ensures !loading
      ensures outcome.Fetched? ==> post == outcome.post && error == old(error)
      ensures outcome.FetchFailed? ==> error == Some(LoadError) && post == old(post)
      ensures commentText == old(commentText) && fetchCalls == old(fetchCalls) && commentCalls == old(commentCalls)
      ensures outcome.FetchFailed? ==> View() == ErrorView
      ensures outcome.Fetched? && !Truthy(old(error)) ==>
        View() == if outcome.post.Some? then PostView(outcome.post.value) else NotFoundView
    {
      if outcome.FetchFailed? {
        error := Some(LoadError);
      } else {
        post := outcome.post;
      }
      loading := false;
    }

    /** The comment box's `onChange`. */
    method TypeComment(text: string)
      modifies this
      ensures commentText == text
      ensures post == old(post) && loading == old(loading) && error == old(error)
      ensures fetchCalls == old(fetchCalls) && commentCalls == old(commentCalls)
    {
      commentText := text;
    }

    /** `handleAddComment`, reachable only from the post view (not loading, no
        error, a post present; see `ViewOf`): blank text does
        nothing at all; otherwise the text is sent, and a new comment is
        appended and the box cleared, while a failure changes nothing. */
    method HandleAddComment(outcome: CommentOutcome)
      requires !loading && !Truthy(error) && post.Some?
      modifies this
      ensures loading == old(loading) && error == old(error) && fetchCalls == old(fetchCalls)
      ensures Trim(old(commentText)) == "" ==>
        post == old(post) && commentText == old(commentText) && commentCalls == old(commentCalls)
      ensures Trim(old(commentText)) != "" ==> commentCalls == old(commentCalls) + [old(commentText)]
      ensures Trim(old(commentText)) != "" && outcome.Added? ==>
        post == Some(WithComment(old(post).value, outcome.comment)) && commentText == ""
      ensures Trim(old(commentText)) != "" && outcome.AddFailed? ==>
        post == old(post) && commentText == old(commentText)
    {
      var text := commentText;
      if Trim(text) == "" {
        return;
      }
      commentCalls := commentCalls + [text];
      if outcome.Added? {
        var prev := post.value;
        post := Some(WithComment(prev, outcome.comment));
        commentText := "";
      }
    }
  }

  /** The page opened without an `:id`: no fetch starts and the loading view
      stays. */
  method OpenWithoutId() returns (view: PageView, fetches: nat)
    ensures view == LoadingView && fetches == 0
  {
    var page := new Page(None);
    var started := page.Mount();
    view := page.View();
    fetches := |page.fetchCalls|;
  }

  /** The page opened on an id while its fetch is still pending: one fetch
      for that id has started and the loading view shows. */
  method OpenWhileFetching(id: string) returns (view: PageView, fetched: seq<string>)
    requires id != ""
    ensures view == LoadingView && fetched == [id]
  {
    var page := new Page(Some(id));
    var started := page.Mount();
    view := page.View();
    fetched := page.fetchCalls;
  }

  /** The page opened on an id whose post arrives: one fetch for that id, then
      the post view with the post's author or the fallback. */
  method OpenAndFetch(id: string, p: ViewedPost) returns (view: PageView, fetched: seq<string>, author: string)
    requires id != ""
    ensures view == PostView(p) && fetched == [id]
    ensures author == if Truthy(p.authorName) then p.authorName.value else UnknownAuthor
  {
    var page := new Page(Some(id));
    var started := page.Mount();
    page.CompleteFetch(Fetched(Some(p)));
    view := page.View();
    fetched := page.fetchCalls;
    author := AuthorName(view.post);
  }
}
