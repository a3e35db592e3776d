/**
 * The request handlers of `registerRoutes` (dist/server/routes.js) over the
 * memory store: each handler maps its request inputs and the store to a status
 * code and a JSON body. Reading handlers are functions of the store; the ones
 * that change it are methods. The image host, the environment and the clock
 * are parameters.
 */
module Routes {
  import opened Wrappers
  import opened JsText
  import opened Schema
  import opened Storage

  /** The JSON bodies the handlers send. */
  datatype Body =
    | PostBody(post: BlogPost)
    | PostList(posts: seq<BlogPost>)
    | ProductBody(product: Product)
    | Message(message: string)
    | TokenBody(token: string)
    | ValidBody(valid: bool)
    | UploadBody(imageUrl: string, fileId: int, message: string)
    | FailureBody(message: string, error: string)

  datatype Response = Response(status: nat, body: Body)

  const PostNotFound := Response(404, Message("Blog post not found"))

  // ---------------------------------------------------------------------------
  // Blog posts

  /** GET /api/blog: status 200 with the public listing, which holds no draft. */
  function ListBlogPosts(store: MemStorage): (r: Response)
    reads store
    requires store.Valid()
    ensures r.status == 200 && r.body.PostList?
    ensures forall i :: 0 <= i < |r.body.posts| ==>
              r.body.posts[i].published && r.body.posts[i].id in store.blogPosts &&
              store.blogPosts[r.body.posts[i].id] == r.body.posts[i]
    ensures forall k :: k in store.blogPosts && store.blogPosts[k].published ==> store.blogPosts[k] in r.body.posts
    ensures forall i, j :: 0 <= i < j < |r.body.posts| ==> r.body.posts[i].id < r.body.posts[j].id
  {
    Response(200, PostList(store.GetBlogPosts()))
  }

  /**
   * GET /api/blog/:id, checked in this order: an id `parseInt` cannot read is
   * 400, an id no post has is 404, otherwise 200 with the post, draft or not.
   */
  function GetBlogPostById(store: MemStorage, rawId: string): (r: Response)
    reads store
    requires store.Valid()
    ensures ParseInt(rawId).NaN? ==> r == Response(400, Message("Invalid blog post ID"))
    ensures ParseInt(rawId).Int? && ParseInt(rawId).value !in store.blogPosts ==> r == PostNotFound
    ensures ParseInt(rawId).Int? && ParseInt(rawId).value in store.blogPosts ==>
      r == Response(200, PostBody(store.blogPosts[ParseInt(rawId).value]))
  {
    match ParseInt(rawId)
    case NaN => Response(400, Message("Invalid blog post ID"))
    case Int(id) =>
      match store.GetBlogPost(id)
      case None => PostNotFound
      case Some(post) => Response(200, PostBody(post))
  }

  /**
   * Fetching a post by the decimal form of an id is never answered 400, and
   * succeeds exactly when a post (published or not) has that id.
   */
  lemma GetByDecimalId(store: MemStorage, id: nat)
    requires store.Valid()
    ensures GetBlogPostById(store, Decimal(id)).status != 400
    ensures GetBlogPostById(store, Decimal(id)).status == 200 <==> id in store.blogPosts
  {
    ParseIntOfDecimal(id, "");
    assert Decimal(id) + "" == Decimal(id);
  }

  /** POST /api/blog: the body goes to the store unchecked; 201 with the created post. */
  method CreateBlogPostRoute(store: MemStorage, body: InsertBlogPost, now: Timestamp) returns (r: Response)
    requires store.Valid()
    modifies store`blogPosts, store`currentBlogPostId
    ensures store.Valid()
    ensures r == Response(201, PostBody(NewBlogPost(body, old(store.currentBlogPostId), now)))
    ensures store.blogPosts == old(store.blogPosts)[old(store.currentBlogPostId) := r.body.post]
    ensures store.currentBlogPostId == old(store.currentBlogPostId) + 1
  {
    var post := store.CreateBlogPost(body, now);
    r := Response(201, PostBody(post));
  }

  /**
   * PUT /api/blog/:id has no NaN check: an unreadable id reaches the store,
   * where no post can have it, so it is 404 like an absent id. The answer is
   * 404 exactly when the update found no post, and the store is then unchanged.
   */
  method UpdateBlogPostRoute(store: MemStorage, rawId: string, d: BlogPostPatch, now: Timestamp) returns (r: Response)
    requires store.Valid()
    modifies store`blogPosts
    ensures store.Valid()
    ensures !(ParseInt(rawId).Int? && ParseInt(rawId).value in old(store.blogPosts)) ==>
      r == PostNotFound && store.blogPosts == old(store.blogPosts)
    ensures ParseInt(rawId).Int? && ParseInt(rawId).value in old(store.blogPosts) ==>
      var id := ParseInt(rawId).value;
      var updated := MergePatch(old(store.blogPosts)[id], d, now);
      r == Response(200, PostBody(updated)) && store.blogPosts == old(store.blogPosts)[id := updated]
  {
    match ParseInt(rawId)
    case NaN =>
      r := PostNotFound;
    case Int(id) =>
      var post := store.UpdateBlogPost(id, d, now);
      match post
      case None => r := PostNotFound;
      case Some(p) => r := Response(200, PostBody(p));
  }

  /**
   * DELETE /api/blog/:id, again with no NaN check: 404 exactly when nothing
   * was removed; afterwards no post has the id.
   */
  method DeleteBlogPostRoute(store: MemStorage, rawId: string) returns (r: Response)
    requires store.Valid()
    modifies store`blogPosts
    ensures store.Valid()
    ensures r.status == 404 <==> !(ParseInt(rawId).Int? && ParseInt(rawId).value in old(store.blogPosts))
    ensures r.status == 404 ==> r == PostNotFound && store.blogPosts == old(store.blogPosts)
    ensures r.status != 404 ==>
      r == Response(200, Message("Blog post deleted successfully"))
      && store.blogPosts == old(store.blogPosts) - {ParseInt(rawId).value}
  {
    match ParseInt(rawId)
    case NaN =>
      r := PostNotFound;
    case Int(id) =>
      var existed := store.DeleteBlogPost(id);
      r := if existed then Response(200, Message("Blog post deleted successfully")) else PostNotFound;
  }

  // ---------------------------------------------------------------------------
  // Products

  /** GET /api/products/:id: no NaN check, so an unreadable id is simply not found. */
  function GetProductById(store: MemStorage, rawId: string): (r: Response)
    reads store
    requires store.Valid()
    ensures r.status == 404 <==> !(ParseInt(rawId).Int? && ParseInt(rawId).value in store.products)
    ensures r.status == 404 ==> r.body == Message("Product not found")
    ensures r.status != 404 ==> r == Response(200, ProductBody(store.products[ParseInt(rawId).value]))
  {
    var found := match ParseInt(rawId)
      case NaN => None
      case Int(id) => store.GetProduct(id);
    match found
    case None => Response(404, Message("Product not found"))
    case Some(p) => Response(200, ProductBody(p))
  }

  // ---------------------------------------------------------------------------
  // Admin gate

  const AdminPassword := "admin123"
  const AdminToken := "admin-token"
  const BearerPrefix := "Bearer "

  /** POST /api/admin/login: the one static token exactly for the one static password, else 401. */
  function Login(password: Option<string>): (r: Response)
    ensures r.status == 200 <==> password == Some(AdminPassword)
    ensures r.status == 200 ==> r.body == TokenBody(AdminToken)
    ensures r.status != 200 ==> r == Response(401, Message("Invalid password"))
  {
    if password == Some(AdminPassword) then Response(200, TokenBody(AdminToken))
    else Response(401, Message("Invalid password"))
  }

  /**
   * GET /api/admin/verify: the Authorization header with its first `"Bearer "`
   * removed must equal the token; a missing header is 401.
   */
  function Verify(authorization: Option<string>): (r: Response)
    ensures r.status == 200 <==> authorization.Some? && ReplaceFirst(authorization.value, BearerPrefix, "") == AdminToken
    ensures r.status == 200 ==> r.body == ValidBody(true)
    ensures r.status != 200 ==> r == Response(401, Message("Invalid token"))
  {
    var token := match authorization
      case None => None
      case Some(h) => Some(ReplaceFirst(h, BearerPrefix, ""));
    if token == Some(AdminToken) then Response(200, ValidBody(true))
    else Response(401, Message("Invalid token"))
  }

  /** A header `Bearer <t>` verifies exactly when `t` is the token. */
  lemma VerifyBearer(t: string)
    ensures Verify(Some(BearerPrefix + t)).status == 200 <==> t == AdminToken
  {
    ReplaceFirstOfPrefix(BearerPrefix, t);
  }

  /** The token that a successful login hands out verifies when sent back as a bearer token. */
  lemma LoginTokenVerifies()
    ensures Login(Some(AdminPassword)).body.TokenBody?
    ensures Verify(Some(BearerPrefix + Login(Some(AdminPassword)).body.token)).status == 200
  {
    VerifyBearer(AdminToken);
  }

  /** The `"Bearer "` prefix is not required: the bare token verifies as well. */
  lemma VerifyAcceptsBareToken()
    ensures Verify(Some(AdminToken)).status == 200
  {
    forall i | 0 <= i < |AdminToken| ensures AdminToken[i] != BearerPrefix[0] {
    }
    AbsentFirstCharNeverOccurs(AdminToken, BearerPrefix);
  }

  // ---------------------------------------------------------------------------
  // Image upload

  /** multer's `limits.fileSize`: 50 MiB. */
  const MaxUploadBytes := 50 * 1024 * 1024

  /** multer's `fileFilter`: any MIME type under `image/`. */
  predicate FileFilter(mimetype: string): (b: bool)
    ensures b ==> |mimetype| >= 6 && mimetype == "image/" + mimetype[6..]
  {
    StartsWith(mimetype, "image/")
  }

  /** The filter passes exactly the types of the form `image/<subtype>`, whatever the subtype. */
  lemma FileFilterIsImagePrefix(mimetype: string)
    ensures FileFilter(mimetype) <==> exists sub :: mimetype == "image/" + sub
  {
    if exists sub :: mimetype == "image/" + sub {
      var sub :| mimetype == "image/" + sub;
      assert mimetype[..6] == "image/";
    }
  }

  /** The `image` part of the multipart request, as multer describes it. */
  datatype RequestFile = RequestFile(originalname: string, size: nat, mimetype: string)

  /** The three image-host settings read from the environment. */
  datatype CloudConfig = CloudConfig(cloudName: Option<string>, apiKey: Option<string>, apiSecret: Option<string>)

  /** JavaScript truthiness of an environment variable: set and non-empty. */
  predicate Truthy(v: Option<string>) {
    v.Some? && v.value != ""
  }

  /** All three Cloudinary settings are present; an empty one counts as missing. */
  predicate Configured(c: CloudConfig): (b: bool)
    ensures b <==> c.cloudName.Some? && c.cloudName.value != [] && c.apiKey.Some? && c.apiKey.value != []
                   && c.apiSecret.Some? && c.apiSecret.value != []
  {
    Truthy(c.cloudName) && Truthy(c.apiKey) && Truthy(c.apiSecret)
  }

  /** What the compress-and-upload step throws: an `Error` with a message, or some other value. */
  datatype HostError = HostError(isError: bool, message: string)

  /** The diagnostic text of a failure: the message of an `Error`, otherwise `"Unknown error"`. */
  function ErrorText(e: HostError): (t: string)
    ensures e.isError ==> t == e.message
    ensures !e.isError ==> t == "Unknown error"
  {
    if e.isError then e.message else "Unknown error"
  }

  /**
   * How a request to POST /api/upload/blog-image ends: multer turns the file
   * away (by type, or by size) before the handler runs, or the handler answers.
   */
  datatype UploadOutcome = RejectedByFilter | RejectedTooLarge | Handled(response: Response)

  const ConfigMissing := Response(500, Message("Cloudinary configuration missing. Please set up environment variables."))

  /**
   * The metadata recorded for an uploaded image: the stored name is
   * `blog_<timestamp>_<original name>`, the rest is copied from the request,
   * and the cloud URL is the one the host returned.
   */
  function UploadMetadata(f: RequestFile, url: string, nameClock: nat): (m: InsertUploadedFile)
    ensures m.originalName == f.originalname && m.fileSize == f.size && m.mimeType == f.mimetype
    ensures m.cloudUrl == Some(url)
    ensures m.fileName == "blog_" + Decimal(nameClock) + "_" + f.originalname
  {
    InsertUploadedFile(f.originalname, "blog_" + Decimal(nameClock) + "_" + f.originalname, f.size, f.mimetype, Some(url))
  }

  /**
   * The upload pipeline. multer checks the type, then the size; the handler
   * then answers 400 for a missing file before it looks at the configuration,
   * and 500 for missing configuration before anything is compressed or sent
   * (`attempted` says whether the host was called). `host` is the outcome of
   * compressing and uploading. On success the metadata record is built from
   * the request and the answer carries the URL and the record's id.
   */
  method UploadBlogImage(
    store: MemStorage, file: Option<RequestFile>, config: CloudConfig,
    host: Result<string, HostError>, nameClock: nat, idClock: nat, now: Timestamp)
    returns (out: UploadOutcome, attempted: bool, record: Option<UploadedFile>)
    ensures file.Some? && !FileFilter(file.value.mimetype) ==> out == RejectedByFilter
    ensures file.Some? && FileFilter(file.value.mimetype) && file.value.size > MaxUploadBytes ==> out == RejectedTooLarge
    ensures file.None? ==> out == Handled(Response(400, Message("No file uploaded")))
    ensures file.Some? && FileFilter(file.value.mimetype) && file.value.size <= MaxUploadBytes && !Configured(config) ==>
      out == Handled(ConfigMissing)
    ensures attempted <==>
      file.Some? && FileFilter(file.value.mimetype) && file.value.size <= MaxUploadBytes && Configured(config)
    ensures attempted && host.Err? ==>
      out == Handled(Response(500, FailureBody("Failed to upload image", ErrorText(host.error))))
    ensures record.Some? <==> attempted && host.Ok?
    ensures record.Some? ==>
      record.value == NewUploadedFile(UploadMetadata(file.value, host.value, nameClock), idClock, now)
      && out == Handled(Response(200, UploadBody(host.value, idClock, "Image uploaded successfully")))
  {
    attempted, record := false, None;
    match file
    case None =>
      out := Handled(Response(400, Message("No file uploaded")));
    case Some(f) =>
      if !FileFilter(f.mimetype) {
        out := RejectedByFilter;
      } else if f.size > MaxUploadBytes {
        out := RejectedTooLarge;
      } else if !Configured(config) {
        out := Handled(ConfigMissing);
      } else {
        attempted := true;
        match host
        case Err(e) =>
          out := Handled(Response(500, FailureBody("Failed to upload image", ErrorText(e))));
        case Ok(url) =>
          var meta := store.CreateUploadedFile(UploadMetadata(f, url, nameClock), idClock, now);
          record := Some(meta);
          out := Handled(Response(200, UploadBody(url, meta.id, "Image uploaded successfully")));
      }
  }
}
