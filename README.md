# Blog application: authentication, post handling and page logic

This project models the decision logic of a small MERN blog.

On the server it covers:
- the `protect` middleware and the `authorize` role guard;
- the auth controller's own, looser `protect`, registration and login;
- the post controllers: slug, tags and excerpt derivation, creating, reading, updating and deleting posts, and their 404 answers;
- the post router's ordered route table, with `protect` in front of some routes.

On the client it covers:
- the home page's tag list, search-and-tag filter and featured/regular split;
- the post editor's form state, tag parser and submit lifecycle;
- the sign-in form's state and submit lifecycle;
- the single-post page: fetch lifecycle, render precedence, author fallbacks and adding a comment.

External collaborators are modelled as follows:
- **Token signer.** `Tokens.Signer` is a pair of functions, `sign(claims, issuedAt, ttl)` and `verify(token, now)`. `Tokens.Sound` states what the library promises:
  - a token verifies to its claims strictly before it expires;
  - it fails from its expiry on;
  - minted tokens are non-empty and contain no space;
  - an empty token never verifies.
- **Password hasher.** `Passwords.Hasher` is `hash(plaintext, salt)` together with `compare`. `Passwords.Sound` states that a password matches its own digest.
- **Collections.** The user and post collections are classes, `Accounts.UserStore` and `PostControllers.PostStore`. Each holds a sequence in natural order plus an id counter that stands for ObjectId allocation, so `findOne`/`findById` return the first match.
- **Requests.** A request travelling through middleware is `Express.Exchange`. Its fields are the `Authorization` header, `req.user`, the number of `next()` calls and what was sent.
- **Exceptions.** A JavaScript TypeError thrown inside a handler's `try` (reading a property of `undefined`) is modelled as that handler's 500 `Server error` answer.
- **Client events.** Service calls on the client are recorded in a sequence field of the page class (the arguments of each call; `addComment(id, { text })` records only `text`, because `id` is the page's fixed route parameter `BlogPostPage.Page.id`). Their outcome is a parameter of the method that completes the call.

Where the integration tests expect something the code does not do, the model follows the code:
- **No ownership check.** The tests expect 403 when another user updates or deletes a post (server/tests/integration/posts.test.js:188-203 and 223-237). `updatePost` and `deletePost` contain no ownership check. `PostRoutes.AnyUserReachesChanges` proves that any stored user with a live token reaches both handlers.
- **Registration answer.** The test expects a token and the email in the registration answer (server/tests/integration/auth.test.js:18-19). Registration answers only `{ message }`.
- **Email format.** The test expects 400 for `invalid-email` (server/tests/integration/auth.test.js:23-34). `registerUser` checks only that the three fields are present.
- **Reading a post needs a token.** The test expects 200 for `GET /api/posts/:id` without a token (server/tests/integration/posts.test.js:155-160). The route is guarded by `protect` (server/src/routes/postRoutes.js:11), so the answer is 401 (`PostRoutes.SegmentRoutes`, `PostRoutes.GuardedRoutesNeedToken`).
- **A missing title is a server error.** The test expects 400 with an `error` body when the title is missing (server/tests/integration/posts.test.js:91-101). `createPost` answers 500 `Server error` (`PostControllers.CreatePost`).

Other behaviour of the code that the model makes explicit:
- **Email matching.** The model assumes email lookup is an exact comparison. models/User.js is not part of this model, so whether the schema lower-cases or trims emails is not known.
- **Two strategies per endpoint.** The middleware re-reads the user per request, while the controller's `protect` trusts the token's claims. Both are modelled, and `AuthController.SchemeCheckDiffers` shows one header on which they disagree.
- **`GET /user` always fails.** The route runs without `protect`, so `req.user.id` throws and the answer is always 500 (`PostRoutes.UserPostsAlwaysFail`). Its query filters on a `user` field that posts do not carry. What such a query returns depends on the Mongoose version's `strictQuery` setting, so `PostControllers.GetAllPostsForUser` takes it as a parameter: stripped, the filter matches every post; kept, it matches none.
- **Array tags are refused.** `tags ? tags.split(',')` throws for an array, even an empty one, so `createPost` answers 500 for a body whose `tags` is a JSON array. The editor page builds such an array (client/src/pages/CreatePost.jsx:42-45). How the client's service layer (client/src/services/api.js, not part of this model) serialises it decides which branch the server takes.

## Model

| member | source | states |
|---|---|---|
| Text.Prefix | server/src/controllers/postControllers.js:19 | `substring(0, n)` is a prefix of length min(n, length) |
| Text.ContainsIff | client/src/pages/Index.jsx:56-57 | `includes` holds exactly when the needle occurs at some position |
| Text.Lower | client/src/pages/Index.jsx:56-57 | `toLowerCase`: same length, each ASCII capital replaced by its lower-case letter |
| Text.StartsWith | server/src/middleware/authMiddleware.js:6 | `startsWith`: the prefix occupies the first positions |
| Text.Contains | client/src/pages/Index.jsx:56-57 | `includes` on strings; characterised by `Text.ContainsIff` |
| Text.Trim | client/src/pages/CreatePost.jsx:44 | the input with its leading and trailing whitespace removed: a piece of the input preceded and followed only by whitespace, neither starting nor ending with whitespace, and empty exactly when the input is all whitespace |
| Text.TrimKeepsOut | server/src/controllers/postControllers.js:16 | trimming introduces no character that was not in the input |
| Text.TrimIdempotent | server/src/controllers/postControllers.js:16 | trimming twice equals trimming once |
| Text.Split | server/src/controllers/postControllers.js:16 | `split` gives at least one piece, and no piece contains the separator |
| Text.JoinSplit | server/src/middleware/authMiddleware.js:10 | joining the pieces with the separator gives back the string |
| Text.SplitJoin | server/src/middleware/authMiddleware.js:10 | splitting a join of separator-free pieces gives back the pieces |
| Text.SplitAfterPiece | server/src/middleware/authMiddleware.js:10 | a separator-free prefix followed by the separator is exactly the first piece |
| Text.SplitNoSeparator | server/src/controllers/authController.js:7 | a string without the separator is a single piece |
| Text.SplitFirstPiece | server/src/middleware/authMiddleware.js:10 | the first piece is the longest separator-free prefix |
| Text.SplitCount | server/src/controllers/postControllers.js:16 | there is one more piece than there are separators |
| Text.Decimal | client/src/pages/CreatePost.jsx:59 | a status rendered in a template literal is one or more digits, with a leading `0` only for zero |
| Text.DecimalRoundTrip | client/src/pages/Login.jsx:51 | reading the rendered digits back gives the number |
| Seqs.Filter | client/src/pages/Index.jsx:55-60 | `filter` keeps exactly the elements that pass |
| Seqs.Map | server/src/controllers/postControllers.js:16 | `map` keeps the length and applies the function pointwise |
| Seqs.Dedup | client/src/pages/Index.jsx:52 | `[...new Set(s)]` has the same elements as `s`, each once, as a subsequence of `s` |
| Seqs.FilterIsSubsequence | client/src/pages/Index.jsx:55-60 | `filter` keeps the relative order |
| Seqs.FilterPartition | client/src/pages/Index.jsx:62-63 | filtering by a predicate and by its negation splits the multiset of elements |
| Seqs.FilterEmpty | client/src/pages/CreatePost.jsx:72 | a filter is empty exactly when no element passes |
| Accounts.FindById | server/src/middleware/authMiddleware.js:13 | `findById` finds a stored user with that id, or none exists |
| Accounts.FindByEmail | server/src/controllers/authController.js:63 | `findOne({ email })` finds a stored user with that email; an absent email finds nobody |
| Accounts.Profile | server/src/middleware/authMiddleware.js:13 | `.select('-password')`: the user's id, name, email, role and creation time, without the digest |
| Accounts.FindByEmailUnique | server/src/controllers/authController.js:34-38 | with unique emails, the lookup finds the one user holding the email |
| Accounts.FindByIdUnique | server/src/middleware/authMiddleware.js:13 | with unique ids, the lookup finds the one user holding the id |
| AuthMiddleware.BearerToken | server/src/middleware/authMiddleware.js:5-10 | a token exists exactly for a header starting with `Bearer `; it is the second space-separated piece and contains no space |
| AuthMiddleware.BearerTokenOf | server/src/middleware/authMiddleware.js:6-10 | `Bearer <token>` yields exactly `<token>` |
| AuthMiddleware.Decide | server/src/middleware/authMiddleware.js:4-19 | 401 no-token for a missing or non-Bearer header; 401 token-failed exactly when verification fails; otherwise proceed with the user found by the decoded id, without password, or null |
| AuthMiddleware.Protect | server/src/middleware/authMiddleware.js:4-19 | on rejection, 401 is sent and `req.user` and `next` are untouched; otherwise `req.user` is set and `next` is called exactly once |
| AuthMiddleware.ValidTokenLoadsUser | server/src/middleware/authMiddleware.js:12-14 | a live token minted for a stored user loads that user without password |
| AuthMiddleware.ExpiredTokenRejected | server/src/middleware/authMiddleware.js:15-18 | an expired token gets 401 token-failed |
| AuthMiddleware.EmptyBearerTokenFails | server/src/middleware/authMiddleware.js:10-17 | a header that is just `Bearer ` gets 401 token-failed |
| AuthMiddleware.MissingUserStillProceeds | server/src/middleware/authMiddleware.js:13-14 | a live token whose user is gone still proceeds, with `req.user` null |
| AuthMiddleware.Authorize | server/src/middleware/authMiddleware.js:20-27 | `next` exactly when there is a user and its role is in `roles`; otherwise 403; no user gives 403 |
| AuthController.HeaderToken | server/src/controllers/authController.js:7-10 | the token is the non-empty second space-separated piece of the header, whatever the scheme word |
| AuthController.AnySchemeAccepted | server/src/controllers/authController.js:7 | any scheme word in front of the token is accepted |
| AuthController.NoSpaceNoToken | server/src/controllers/authController.js:7-10 | a header without a space carries no token |
| AuthController.SchemeCheckDiffers | server/src/controllers/authController.js:7 | on `Token abc` the middleware finds no token while this `protect` finds `abc` |
| AuthController.Decide | server/src/controllers/authController.js:6-19 | 401 no-token exactly when there is no token; 401 token-failed exactly when verification fails; otherwise `req.user` is the decoded claims |
| AuthController.Protect | server/src/controllers/authController.js:6-19 | on rejection, 401 is sent and nothing else changes; otherwise `req.user` is set and `next` is called once |
| AuthController.RegisterUser | server/src/controllers/authController.js:22-55 | a missing field gives 400; an existing email gives 400 and leaves the store unchanged; otherwise exactly one user is appended holding `hash(password)` with the default role, and the answer is 201 |
| AuthController.LoginUser | server/src/controllers/authController.js:58-95 | an unknown email gives 401; a missing password gives 500; a wrong password gives 401; otherwise 200 with a one-hour token for `{id, role}` and the user without password |
| PostControllers.Slug | server/src/controllers/postControllers.js:8 | `title.toLowerCase().replace(/ /g, '-')`; its properties are `PostControllers.SlugSpec` |
| PostControllers.SlugSpec | server/src/controllers/postControllers.js:8 | the slug has the title's length; each space becomes `-` and each other character is lower-cased; the slug contains no space |
| PostControllers.SlugWithoutSpaces | server/src/controllers/postControllers.js:8 | a title without spaces has its lower-case form as slug |
| PostControllers.BodyTags | server/src/controllers/postControllers.js:16 | `tags ? tags.split(',').map(tag => tag.trim()) : []`, failing for an array; its properties are `PostControllers.BodyTagsSpec` |
| PostControllers.BodyTagsSpec | server/src/controllers/postControllers.js:16 | an absent or empty field gives no tags; an array throws; otherwise one tag per comma-separated piece, that piece trimmed, comma-free |
| PostControllers.BodyTagsKeepsEmptyPieces | server/src/controllers/postControllers.js:16 | empty pieces are kept: `a,,b` gives three tags |
| PostControllers.Excerpt | server/src/controllers/postControllers.js:19 | the excerpt is a prefix of the content of length min(200, length) |
| PostControllers.ExcerptOfShortContent | server/src/controllers/postControllers.js:106 | short content is its own excerpt; taking the excerpt twice changes nothing |
| PostControllers.CreatedImage | server/src/controllers/postControllers.js:9 | the uploaded filename, or `default-post.jpg` without a file |
| PostControllers.IndexOfPost | server/src/controllers/postControllers.js:73 | `findById` finds the first post with the id, or none has it |
| PostControllers.CreatePost | server/src/controllers/postControllers.js:4-34 | 500 when the title, the content or `req.user` is missing or `tags` is an array, with the store unchanged; otherwise one post is appended with the derived fields, author `req.user.id` (the body's author ignored), the uploaded filename or `default-post.jpg`, and 201 |
| PostControllers.Apply | server/src/controllers/postControllers.js:102-113 | `findByIdAndUpdate` with `updateData`: title, content, slug and excerpt replaced, `featuredImage` replaced only when given; its properties are `PostControllers.ApplyKeepsOwnership` |
| PostControllers.ApplyKeepsOwnership | server/src/controllers/postControllers.js:102-113 | an update keeps the id, author, category and tags, and sets title, content, slug and excerpt |
| PostControllers.UpdatePost | server/src/controllers/postControllers.js:96-133 | 500 for a missing title or content; 404 for an unknown id with the store unchanged; otherwise only that post changes, with `featuredImage` replaced only for a truthy filename |
| PostControllers.RemovePost | server/src/controllers/postControllers.js:138 | removing the only post with an id leaves exactly the others, ids still distinct |
| PostControllers.DeletePost | server/src/controllers/postControllers.js:136-156 | 404 for an unknown id with the store unchanged; otherwise that post is removed, the rest keep their order, and the removed post is answered with 200 |
| PostControllers.GetPostById | server/src/controllers/postControllers.js:72-93 | 200 with a post having the id exactly when one exists, otherwise 404 |
| PostControllers.GetAllPostsForUser | server/src/controllers/postControllers.js:38-52 | 500 exactly when `req.user` has no id; otherwise 200, with every post where the query drops the unknown `user` path and with none where it keeps it |
| PostRoutes.Resolve | server/src/routes/postRoutes.js:8-13 | over `PostRoutes.Table`, the six routes in registration order with their verb, path, guard and handler: the first route matching the verb and path; characterised by `PostRoutes.FirstMatch` |
| PostRoutes.SegmentOf | server/src/routes/postRoutes.js:11-13 | `:id` is a non-empty slash-free segment, with an optional trailing slash |
| PostRoutes.SegmentOfSpec | server/src/routes/postRoutes.js:11-13 | every such segment is recovered from `/t` and `/t/` |
| PostRoutes.FirstMatch | server/src/routes/postRoutes.js:8-13 | the chosen route matches, no earlier one does, and none is chosen only when none matches |
| PostRoutes.Gate | server/src/routes/postRoutes.js:8-13 | an open route runs its handler with no `req.user`; a guarded one runs `protect` first and halts with its 401 |
| PostRoutes.RootRoutes | server/src/routes/postRoutes.js:8-10 | `POST /` is guarded `createPost`; `GET /` is open `getAllPosts`; `PUT /` and `DELETE /` have no route |
| PostRoutes.SegmentRoutes | server/src/routes/postRoutes.js:9-13 | `GET /user` is open; any other `GET /:id`, and every `PUT` and `DELETE /:id`, is guarded |
| PostRoutes.UserShadowsId | server/src/routes/postRoutes.js:9-11 | a `GET` reaching `getPostById` never has `user` (in any case) as its id |
| PostRoutes.GuardedRoutesNeedToken | server/src/routes/postRoutes.js:11-13 | every guarded route answers 401 without a token or with a refused one |
| PostRoutes.UnauthenticatedChangesRefused | server/tests/integration/posts.test.js:239-245 | `PUT` and `DELETE /:id` without a token, or with an invalid one, get 401 |
| PostRoutes.UserPostsAlwaysFail | server/src/routes/postRoutes.js:9 | `GET /user` runs with no `req.user` and always answers 500 |
| PostRoutes.AnyUserReachesChanges | server/tests/integration/posts.test.js:188-203 | any stored user with a live token reaches `updatePost` and `deletePost`; there is no 403 |
| ApiErrors.Describe | client/src/pages/CreatePost.jsx:57-66 | a server answer gives its message, or the prefix and status; no answer gives the connection message; otherwise the error's message or the fallback |
| ApiErrors.StatusReadable | client/src/pages/CreatePost.jsx:59 | the status can be read back from the message |
| ApiErrors.StatusesDistinguished | client/src/pages/Login.jsx:51 | different statuses without a message give different texts |
| IndexPage.FlatTags | client/src/pages/Index.jsx:52 | `flatMap` holds exactly the tags of the posts |
| IndexPage.AllTags | client/src/pages/Index.jsx:52 | every tag of every post, and nothing else, each once |
| IndexPage.MatchesSearch | client/src/pages/Index.jsx:56-57 | the search test of one post; characterised by `IndexPage.MatchesSearchIff` |
| IndexPage.MatchesTag | client/src/pages/Index.jsx:58 | `!selectedTag || post.tags.includes(selectedTag)` |
| IndexPage.FilteredPosts | client/src/pages/Index.jsx:55-60 | the posts passing both tests; characterised by `IndexPage.FilteredPostsSpec` |
| IndexPage.FeaturedPosts | client/src/pages/Index.jsx:62 | the listed posts with `featured` set |
| IndexPage.RegularPosts | client/src/pages/Index.jsx:63 | the listed posts without `featured`; with `FeaturedPosts` a partition (`IndexPage.FeaturedRegularPartition`) |
| IndexPage.MatchesSearchIff | client/src/pages/Index.jsx:56-57 | the search is a substring test on the lower-cased title or excerpt |
| IndexPage.SearchIgnoresCase | client/src/pages/Index.jsx:56-57 | lower-casing the term, the title or the excerpt does not change the result |
| IndexPage.FilteredPostsSpec | client/src/pages/Index.jsx:55-60 | a post is listed exactly when both tests hold, and order is kept |
| IndexPage.EmptyFiltersKeepAll | client/src/pages/Index.jsx:55-60 | an empty term and no tag list every post, in order |
| IndexPage.FeaturedRegularPartition | client/src/pages/Index.jsx:62-63 | featured and regular partition the listed posts, each in order |
| CreatePostPage.ParseTags | client/src/pages/CreatePost.jsx:44 | split at commas, trim each piece, drop the empty ones; characterised by `CreatePostPage.ParseTagsSpec` and `CreatePostPage.ParseTagsArePieces` |
| CreatePostPage.ParseTagsSpec | client/src/pages/CreatePost.jsx:44 | parsed tags are non-empty, trimmed and comma-free, and every non-blank piece is kept |
| CreatePostPage.ParseTagsArePieces | client/src/pages/CreatePost.jsx:44 | every parsed tag is a trimmed piece, the tags are a subsequence of the trimmed pieces, no tag is empty, and each non-empty trimmed piece occurs among the tags as often as among the pieces: exactly the non-empty trimmed pieces, in order, duplicates kept |
| CreatePostPage.BlankPieces | client/src/pages/CreatePost.jsx:44 | all pieces are blank exactly when the input is only commas and whitespace |
| CreatePostPage.NoTagsIff | client/src/pages/CreatePost.jsx:72 | no tags (no preview block) exactly when the input is only commas and whitespace |
| CreatePostPage.PostData | client/src/pages/CreatePost.jsx:42-45 | the form, with `tags` replaced by the parsed list and nothing else changed; none when `tags` is not text |
| CreatePostPage.Editor.constructor | client/src/pages/CreatePost.jsx:15-24 | the initial form, not loading, no error |
| CreatePostPage.Editor.HandleChange | client/src/pages/CreatePost.jsx:26-34 | only the named entry changes, to `checked` for a checkbox and to `value` otherwise; the error is cleared |
| CreatePostPage.Editor.BeginSubmit | client/src/pages/CreatePost.jsx:36-47 | loading, the error cleared, and one call made with the post data, unless the tags throw |
| CreatePostPage.Editor.FinishSubmit | client/src/pages/CreatePost.jsx:53-69 | loading ends; a failure sets the classified message |
| CreatePostPage.Editor.HandleSubmit | client/src/pages/CreatePost.jsx:36-70 | the whole submit: one call, loading false afterwards, and the error empty or classified; when `tags` is not text, no call and the engine's TypeError message (`split is not a function`, or the read of `undefined` when there is no `tags` entry) |
| LoginPage.SignIn.constructor | client/src/pages/Login.jsx:12-18 | an empty email and password, not loading, no error |
| LoginPage.SignIn.HandleChange | client/src/pages/Login.jsx:21-28 | only the named field changes; the error is cleared |
| LoginPage.SignIn.BeginSubmit | client/src/pages/Login.jsx:30-36 | loading, the error cleared, and `login` called with the form as it stands |
| LoginPage.SignIn.FinishSubmit | client/src/pages/Login.jsx:45-61 | loading ends; a failure sets the classified message |
| LoginPage.SignIn.HandleSubmit | client/src/pages/Login.jsx:30-62 | one `login` call with the form; loading false afterwards; the error empty or classified |
| LoginPage.TypeAndSubmit | client/src/tests/Login.test.jsx:51-74 | typing an email and a password and submitting calls `login` with exactly those two fields |
| BlogPostPage.AuthorName | client/src/pages/BlogPost.jsx:109 | the author's name, or `Unknown Author` |
| BlogPostPage.CommentAuthorName | client/src/pages/BlogPost.jsx:156 | the comment author's name, or `Anonymous` |
| BlogPostPage.WithComment | client/src/pages/BlogPost.jsx:41-44 | the comment goes last after the old ones (none if absent), and no other field changes |
| BlogPostPage.CommentsInOrder | client/src/pages/BlogPost.jsx:41-44 | comments added one after another are listed in the order added |
| BlogPostPage.ViewOf | client/src/pages/BlogPost.jsx:59-96 | loading, then error, then missing post, then the post view |
| BlogPostPage.Page.constructor | client/src/pages/BlogPost.jsx:12-15 | no post, loading, no error, empty comment box: the loading view |
| BlogPostPage.Page.View | client/src/pages/BlogPost.jsx:59-96 | the view the page's state renders, as `BlogPostPage.ViewOf` orders it |
| BlogPostPage.Page.Mount | client/src/pages/BlogPost.jsx:31-33 | a fetch starts exactly when there is an id |
| BlogPostPage.Page.CompleteFetch | client/src/pages/BlogPost.jsx:17-29 | the post is stored, or the error set to `Error loading post`; loading ends either way |
| BlogPostPage.Page.TypeComment | client/src/pages/BlogPost.jsx:140 | only the comment box changes |
| BlogPostPage.Page.HandleAddComment | client/src/pages/BlogPost.jsx:36-49 | blank text makes no call and no change; otherwise one call; success appends and clears the box; failure changes nothing |
| BlogPostPage.OpenWithoutId | client/src/pages/BlogPost.jsx:31-33 | without an id no fetch starts and the page stays on the loading view |
| BlogPostPage.OpenWhileFetching | client/src/tests/BlogPost.test.jsx:36-44 | with an id and the fetch still pending, one fetch for that id has started and the loading view shows |
| BlogPostPage.OpenAndFetch | client/src/tests/BlogPost.test.jsx:46-57 | with an id, one fetch, then the post view and the author's name |
| Scenarios.RegisterThenLogin | server/src/controllers/authController.js:22-95 | on an empty collection, registration stores one account with the digest, and login with the same credentials answers 200 with a one-hour token and the profile |
| Scenarios.RegisterLoginCreate | server/src/controllers/authController.js:22-95 | register, login and `POST /` with the login's token create a post authored by the new account |
| Scenarios.WrongPasswordRefused | server/src/controllers/authController.js:71-75 | after registration, a non-matching password gets 401 |
| Scenarios.DuplicateRegistrationRefused | server/src/controllers/authController.js:34-38 | a second registration with the same email gets 400 and adds no account |

## Left out

- The internals of bcrypt and jsonwebtoken are left out: they are foreign calls, modelled by `Hasher`, `Signer` and their `Sound` predicates.
- The salt rounds (`10`) and the secret are left out: they are abstracted by the `salt` parameter and the signer.
- The Mongo schema (server/src/models/Post.js), including its `tittle` field, is not part of this model. It is declarative configuration.
- Schema validation and unique indexes are left out: the schemas are not part of this model.
- A malformed id is not modelled. In the source, `findById` throws a `CastError` for it, which the post handlers' catch blocks answer with 500 (and `protect` with 401 token-failed, for an id taken from a token). The model's ids are always well-formed.
- Accounts.FindByEmail and AuthController.LoginUser assume that a request without an email finds no user, as with a `{ email: null }` query. Whether Mongoose sends `{ email: undefined }` as `null` or drops it (giving `{}`, which matches the first user) depends on the Mongoose and driver version, which the sources do not fix.
- RegisterUser, LoginUser, CreatePost and UpdatePost assume that every body field other than `tags` is a string or absent. A number, an object or an array in those fields is left out. In the source, a numeric `password` makes `bcrypt.hash` reject (500), and an object `email` becomes a query operator in `findOne`.
- Requests are handled one at a time. In the source, `registerUser` awaits between its `findOne` check and `save` (server/src/controllers/authController.js:34-50). Two concurrent registrations with the same email can therefore both pass the check, and no unique index is modelled, so the model's unique-email invariant (`Accounts.UserStore.Valid`) holds only for one request at a time.
- File uploads are left out. No upload middleware is mounted on the post routes (server/src/routes/postRoutes.js:8-13), so in the running app `req.file` is never set and every created post gets `default-post.jpg`. The `file` parameter of `PostControllers.CreatePost` and `PostControllers.UpdatePost` stands for what such a middleware would supply.
- Store failures and hashing failures are left out. In the handlers they are the remaining 500 paths. In `protect`, a failing `User.findById(decoded.id)` is caught with the token errors and answered with 401 token-failed (server/src/middleware/authMiddleware.js:13-17). They are failures of collaborators that are not modelled.
- models/User.js is not part of this model. The role a new account receives is taken to be `user` (`Accounts.DefaultRole`).
- `getAllPosts` is left out: it returns the whole collection with 200.
- Console logging, `navigate`, `window.dispatchEvent`, the Socket.IO server, the app wiring and the user endpoints are left out: they are I/O and plumbing.
- `formatDate` is left out: it uses locale-dependent date formatting.
- AuthGuard, the header, the theme toggle, JSX markup and HTML rendering are left out: they are pure UI.
- Text is ASCII only. `toLowerCase` and `trim` act on ASCII letters and ASCII whitespace, and strings are sequences of characters, not UTF-16 units.
- React's asynchronous state batching and the interleaving of events with a pending call are left out. Each handler is modelled as a start method and a completion method applied in order.
- The router's matching is modelled only for the paths this table uses. Percent-decoding, query strings and `HEAD` requests are left out.
