/**
 * The post controllers (server/src/controllers/postControllers.js): the
 * derived fields of a post (slug, tags, excerpt, image), and create, read,
 * update and delete over the post collection.
 */
module PostControllers {
  import opened Wrappers
  import opened Text
  import opened Seqs
  import opened Tokens
  import opened Express

  type PostId = nat

  /** A stored post. */
  datatype PostRecord = PostRecord(
    id: PostId, title: string, content: string, category: Option<string>, author: UserId,
    tags: seq<string>, featuredImage: string, slug: string, excerpt: string)

  /** The `tags` of a JSON body: absent (or null), a string, or an array of
      strings. */
  datatype TagsValue = NoTags | TagText(text: string) | TagList(items: seq<string>)

  /** The JSON body of a create request; `author` is read and then ignored. */
  datatype CreateBody = CreateBody(
    title: Option<string>, content: Option<string>, category: Option<string>,
    tags: TagsValue, author: Option<string>)

  /** The JSON body of an update request; `category` and `tags` are read and then ignored. */
  datatype UpdateBody = UpdateBody(
    title: Option<string>, content: Option<string>, category: Option<string>, tags: TagsValue)

  const DefaultImage := "default-post.jpg"
  const ExcerptLength: nat := 200
  const PostNotFound := "Post not found"

  // ---------------------------------------------------------------------------
  // Derived fields

  /** `title.toLowerCase().replace(/ /g, '-')`. */
  function Slug(title: string): string {
    ReplaceChar(Lower(title), ' ', '-')
  }

  /** Character by character: a space becomes `-`, an upper-case ASCII letter
      its lower-case form, anything else stays; so a slug has no space. */
  lemma SlugSpec(title: string)
    ensures |Slug(title)| == |title|
    ensures forall i :: 0 <= i < |title| ==>
      Slug(title)[i] == if title[i] == ' ' then '-' else LowerChar(title[i])
    ensures ' ' !in Slug(title)
  {
    var s := Slug(title);
    forall i | 0 <= i < |title|
      ensures s[i] == if title[i] == ' ' then '-' else LowerChar(title[i])
    {
      assert Lower(title)[i] == LowerChar(title[i]);
    }
    assert forall i :: 0 <= i < |s| ==> s[i] != ' ';
  }

  /** A title without spaces has its lower-case form as slug. */
  lemma SlugWithoutSpaces(title: string)
    requires ' ' !in title
    ensures Slug(title) == Lower(title)
  {
    SlugSpec(title);
  }

  /** `tags ? tags.split(',').map(tag => tag.trim()) : []`, or `None` where
      `split` throws: an array is truthy, even an empty one, and has no
      `split`. */
  function BodyTags(tags: TagsValue): Option<seq<string>> {
    match tags
    case NoTags => Some([])
    case TagText(t) => if t == "" then Some([]) else Some(Map(Split(t, ','), Trim))
    case TagList(_) => None
  }

  /** No tags field, or an empty string, gives no tags; an array throws;
      otherwise one tag per comma-separated piece (empty pieces included),
      each the piece with its surrounding whitespace removed, and none
      containing a comma. */
  lemma BodyTagsSpec(tags: TagsValue)
    ensures tags.NoTags? || tags == TagText("") ==> BodyTags(tags) == Some([])
    ensures BodyTags(tags).None? <==> tags.TagList?
    ensures tags.TagText? && tags.text != "" ==>
      && BodyTags(tags).Some?
      && |BodyTags(tags).value| == CountChar(tags.text, ',') + 1
      && forall k :: 0 <= k < |BodyTags(tags).value| ==>
           var tag := BodyTags(tags).value[k];
           Trim(tag) == tag && ',' !in tag && tag == Trim(Split(tags.text, ',')[k])
  {
    if tags.TagText? && tags.text != "" {
      var pieces := Split(tags.text, ',');
      SplitCount(tags.text, ',');
      forall k | 0 <= k < |pieces|
        ensures Trim(BodyTags(tags).value[k]) == BodyTags(tags).value[k] && ',' !in BodyTags(tags).value[k]
      {
        TrimIdempotent(pieces[k]);
        TrimKeepsOut(pieces[k], ',');
      }
    }
  }

  /** Empty pieces are kept: `"a,,b"` gives three tags. */
  lemma BodyTagsKeepsEmptyPieces()
    ensures BodyTags(TagText("a,,b")) == Some(["a", "", "b"])
  {
    assert "a,,b" == "a" + [','] + ("" + [','] + "b");
    SplitAfterPiece("a", ',', "" + [','] + "b");
    SplitAfterPiece("", ',', "b");
    SplitNoSeparator("b", ',');
    assert Split("a,,b", ',') == ["a", "", "b"];
    TrimWithoutWhitespace("a");
    TrimWithoutWhitespace("b");
    TrimWithoutWhitespace("");
  }

  /** `content.substring(0, 200)`. */
  function Excerpt(content: string): (r: string)
    ensures StartsWith(content, r)
    ensures |r| == if |content| < ExcerptLength then |content| else ExcerptLength
  {
    Prefix(content, ExcerptLength)
  }

  /** Content of at most 200 characters is its own excerpt, and taking the
      excerpt of an excerpt changes nothing. */
  lemma ExcerptOfShortContent(content: string)
    ensures |content| <= ExcerptLength ==> Excerpt(content) == content
    ensures Excerpt(Excerpt(content)) == Excerpt(content)
  {
  }

  /** `req.file ? req.file.filename : 'default-post.jpg'`. */
  function CreatedImage(file: Option<string>): string {
    if file.Some? then file.value else DefaultImage
  }

  // ---------------------------------------------------------------------------
  // The post collection

  /** Posts in natural order; `nextId` stands for ObjectId allocation. */
  class PostStore {
    var posts: seq<PostRecord>
    var nextId: nat

    /** Ids are below the allocation counter and pairwise distinct. */
    ghost predicate Valid()
      reads this
    {
      && (forall i :: 0 <= i < |posts| ==> posts[i].id < nextId)
      && (forall i, j :: 0 <= i < j < |posts| ==> posts[i].id != posts[j].id)
    }

    constructor ()
      ensures Valid() && posts == [] && nextId == 0
    {
      posts := [];
      nextId := 0;
    }
  }

  /** Where `findById(id)` finds its post: the first position holding that id. */
  function IndexOfPost(posts: seq<PostRecord>, id: PostId): (r: Option<nat>)
    ensures r.Some? ==> r.value < |posts| && posts[r.value].id == id
    ensures r.Some? ==> forall j :: 0 <= j < r.value ==> posts[j].id != id
    ensures r.None? <==> forall j :: 0 <= j < |posts| ==> posts[j].id != id
    decreases |posts|
  {
    if posts == [] then None
    else if posts[0].id == id then Some(0)
    else
      match IndexOfPost(posts[1..], id)
      case None => None
      case Some(k) => Some(k + 1)
  }

  // ---------------------------------------------------------------------------
  // Handlers

  /** `createPost`: 500 when the title or the content is missing, `req.user`
      has no id, or `tags` is an array (each a TypeError caught by the
      handler); otherwise one new post is appended, authored by `req.user.id`
      whatever the body says, and answered with 201. */
  method CreatePost(store: PostStore, body: CreateBody, file: Option<string>, user: ReqUser)
    returns (r: Reply<PostRecord>)
    requires store.Valid()
    modifies store
    ensures store.Valid()
    ensures body.title.None? || body.content.None? || UserIdOf(user).None? || body.tags.TagList? ==>
      r == Fail(500, ServerError) && store.posts == old(store.posts) && store.nextId == old(store.nextId)
    ensures body.title.Some? && body.content.Some? && UserIdOf(user).Some? && !body.tags.TagList? ==>
      && r.Ok? && r.status == 201
      && r.data == PostRecord(old(store.nextId), body.title.value, body.content.value, body.category,
                              UserIdOf(user).value, BodyTags(body.tags).value, CreatedImage(file),
                              Slug(body.title.value), Excerpt(body.content.value))
      && store.posts == old(store.posts) + [r.data]
      && store.nextId == old(store.nextId) + 1
  {
    if body.title.None? {
      return Fail(500, ServerError);
    }
    var slug := Slug(body.title.value);
    var featuredImage := CreatedImage(file);
    var author := UserIdOf(user);
    if author.None? {
      return Fail(500, ServerError);
    }
    var tags := BodyTags(body.tags);
    if tags.None? {
      return Fail(500, ServerError);
    }
    if body.content.None? {
      return Fail(500, ServerError);
    }
    var newPost := PostRecord(store.nextId, body.title.value, body.content.value, body.category,
                              author.value, tags.value, featuredImage, slug, Excerpt(body.content.value));
    store.posts := store.posts + [newPost];
    store.nextId := store.nextId + 1;
    r := Ok(201, newPost);
  }

  /** The fields `updatePost` writes; `featuredImage` only when a file came. */
  datatype UpdateData = UpdateData(title: string, content: string, slug: string, excerpt: string, featuredImage: Option<string>)

  /** `findByIdAndUpdate(id, updateData)` applied to one stored post. */
  function Apply(p: PostRecord, u: UpdateData): PostRecord {
    p.(title := u.title, content := u.content, slug := u.slug, excerpt := u.excerpt,
       featuredImage := u.featuredImage.GetOr(p.featuredImage))
  }

  /** An update leaves id, author, category and tags as they were, and makes
      the slug and the excerpt follow the new title and content. */
  lemma ApplyKeepsOwnership(p: PostRecord, title: string, content: string, image: Option<string>)
    ensures var q := Apply(p, UpdateData(title, content, Slug(title), Excerpt(content), image));
      && q.id == p.id && q.author == p.author && q.category == p.category && q.tags == p.tags
      && q.title == title && q.content == content
      && ' ' !in q.slug && StartsWith(content, q.excerpt)
  {
    SlugSpec(title);
  }

  /** `updatePost`: 500 when the title or the content is missing (before any
      lookup), 404 for an unknown id, otherwise the post at that id is
      replaced by its update and answered with 200. Nothing else changes. The
      handler does not look at who is asking. */
  method UpdatePost(store: PostStore, id: PostId, body: UpdateBody, file: Option<string>)
    returns (r: Reply<PostRecord>)
    requires store.Valid()
    modifies store
    ensures store.Valid() && store.nextId == old(store.nextId)
    ensures body.title.None? || body.content.None? ==>
      r == Fail(500, ServerError) && store.posts == old(store.posts)
    ensures body.title.Some? && body.content.Some? && IndexOfPost(old(store.posts), id).None? ==>
      r == Fail(404, PostNotFound) && store.posts == old(store.posts)
    ensures body.title.Some? && body.content.Some? && IndexOfPost(old(store.posts), id).Some? ==>
      var i := IndexOfPost(old(store.posts), id).value;
      var image := if Truthy(file) then file else None;
      var updated := Apply(old(store.posts)[i],
        UpdateData(body.title.value, body.content.value, Slug(body.title.value), Excerpt(body.content.value), image));
      r == Ok(200, updated) && store.posts == old(store.posts)[i := updated]
  {
    if body.title.None? {
      return Fail(500, ServerError);
    }
    var slug := Slug(body.title.value);
    var featuredImage := file;
    if body.content.None? {
      return Fail(500, ServerError);
    }
    var updateData := UpdateData(body.title.value, body.content.value, slug, Excerpt(body.content.value), None);
    if Truthy(featuredImage) {
      updateData := updateData.(featuredImage := featuredImage);
    }
    var i := IndexOfPost(store.posts, id);
    if i.None? {
      return Fail(404, PostNotFound);
    }
    var updatedPost := Apply(store.posts[i.value], updateData);
    store.posts := store.posts[i.value := updatedPost];
    r := Ok(200, updatedPost);
  }

  /** Removing the post at position `i`, the only one with its id, leaves
      exactly the others, still with distinct ids. */
  lemma RemovePost(posts: seq<PostRecord>, i: nat, id: PostId)
    requires forall a, b :: 0 <= a < b < |posts| ==> posts[a].id != posts[b].id
    requires i < |posts| && posts[i].id == id
    ensures var rest := posts[..i] + posts[i + 1..];
      && (forall p :: p in rest <==> p in posts && p.id != id)
      && (forall a, b :: 0 <= a < b < |rest| ==> rest[a].id != rest[b].id)
      && (forall a :: 0 <= a < |rest| ==> rest[a] in posts)
  {
    var rest := posts[..i] + posts[i + 1..];
    assert forall a :: 0 <= a < |rest| ==> rest[a] == if a < i then posts[a] else posts[a + 1];
    forall p | p in posts && p.id != id ensures p in rest {
      var k :| 0 <= k < |posts| && posts[k] == p;
      if k < i {
        assert rest[k] == p;
      } else {
        assert rest[k - 1] == p;
      }
    }
  }

  /** `deletePost`: 404 for an unknown id; otherwise that post is removed, the
      others keep their order, and the removed post is answered with 200. */
  method DeletePost(store: PostStore, id: PostId) returns (r: Reply<PostRecord>)
    requires store.Valid()
    modifies store
    ensures store.Valid() && store.nextId == old(store.nextId)
    ensures IndexOfPost(old(store.posts), id).None? ==>
      r == Fail(404, PostNotFound) && store.posts == old(store.posts)
    ensures IndexOfPost(old(store.posts), id).Some? ==>
      var i := IndexOfPost(old(store.posts), id).value;
      r == Ok(200, old(store.posts)[i]) && store.posts == old(store.posts)[..i] + old(store.posts)[i + 1..]
    ensures forall p :: p in store.posts <==> p in old(store.posts) && p.id != id
  {
    var i := IndexOfPost(store.posts, id);
    if i.None? {
      return Fail(404, PostNotFound);
    }
    var deletedPost := store.posts[i.value];
    RemovePost(store.posts, i.value, id);
    store.posts := store.posts[..i.value] + store.posts[i.value + 1..];
    r := Ok(200, deletedPost);
  }

  /** `getPostById`: 200 with the post that has the id, 404 when none has it. */
  function GetPostById(posts: seq<PostRecord>, id: PostId): (r: Reply<PostRecord>)
    ensures r.Ok? <==> exists k :: 0 <= k < |posts| && posts[k].id == id
    ensures r.Ok? ==> r.status == 200 && r.data in posts && r.data.id == id
    ensures r.Fail? ==> r == Fail(404, PostNotFound)
  {
    match IndexOfPost(posts, id)
    case None => Fail(404, PostNotFound)
    case Some(i) => Ok(200, posts[i])
  }

  /** `getAllPostsForUser`: reading `req.user.id` throws (500) unless a
      middleware set a user. Its query filters on a `user` field that no
      stored post carries: where the query layer strips filter paths the
      schema does not know (`stripsUnknownPaths`), the filter is empty and
      every post is answered; otherwise no post matches. */
  function GetAllPostsForUser(posts: seq<PostRecord>, user: ReqUser, stripsUnknownPaths: bool)
    : (r: Reply<seq<PostRecord>>)
    ensures r == Fail(500, ServerError) <==> UserIdOf(user).None?
    ensures r.Ok? ==> r.status == 200
    ensures r.Ok? && stripsUnknownPaths ==> r.data == posts
    ensures r.Ok? && !stripsUnknownPaths ==> forall p :: p !in r.data
  {
    if UserIdOf(user).None? then Fail(500, ServerError)
    else if stripsUnknownPaths then Ok(200, posts)
    else Ok(200, [])
  }
}
