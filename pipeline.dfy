/**
 * How the client pages and the server fit together. A submitted
 * `finalData` becomes a request body. The client's image checks relate to
 * the server's multer filter. Short request sequences run against a fresh
 * memory store.
 */
module Pipeline {
  import opened Wrappers
  import opened JsText
  import opened Schema
  import opened Storage
  import opened Routes
  import opened BlogForm

  /** The JSON body of POST /api/blog for a `finalData`: every field present. */
  function CreateBody(d: FinalData): (b: InsertBlogPost)
    ensures b.published == Some(d.published) && b.imageUrl == Some(d.imageUrl)
    ensures b.title == d.title && b.content == d.content && b.excerpt == d.excerpt && b.category == d.category
  {
    InsertBlogPost(d.title, d.content, d.excerpt, Some(d.imageUrl), d.category, Some(d.published))
  }

  /** The JSON body of PUT /api/blog/:id for a `finalData`, the `id` stripped off: every field supplied. */
  function UpdateBody(d: FinalData): (b: BlogPostPatch)
    ensures b.title == Some(d.title) && b.content == Some(d.content) && b.excerpt == Some(d.excerpt)
    ensures b.imageUrl == Some(Some(d.imageUrl)) && b.category == Some(d.category) && b.published == Some(d.published)
  {
    BlogPostPatch(Some(d.title), Some(d.content), Some(d.excerpt), Some(Some(d.imageUrl)), Some(d.category), Some(d.published))
  }

  /** A server just started: a fresh store holding the seed data, of which the scenarios need only that it is valid. */
  method FreshStore(now: Timestamp) returns (store: MemStorage)
    ensures fresh(store) && store.Valid()
  {
    store := new MemStorage(now);
  }

  /** Fetching a stored post by the decimal form of its id answers 200 with that post. */
  lemma FetchStored(store: MemStorage, id: nat)
    requires store.Valid() && id in store.blogPosts
    ensures GetBlogPostById(store, Decimal(id)) == Response(200, PostBody(store.blogPosts[id]))
  {
    ParseIntOfDecimal(id, "");
    assert Decimal(id) + "" == Decimal(id);
  }

  /** Every type the client whitelists passes the server's filter. */
  lemma ClientImageTypesPassServerFilter(t: string)
    requires IsAllowedImageType(t)
    ensures FileFilter(t)
  {
    assert t == "image/jpeg" || t == "image/jpg" || t == "image/png" || t == "image/webp";
  }

  /** The filter is wider than the whitelist: a GIF is refused by the client and let through by the server. */
  lemma ServerFilterWiderThanClient()
    ensures FileFilter("image/gif") && !IsAllowedImageType("image/gif")
  {
    assert "image/gif"[..|"image/"|] == "image/";
  }

  /** An image the snapshot accepts is within multer's type filter and size limit. */
  lemma SnapshotAcceptedImagePassesMulter(f: ImageFile)
    requires CheckSnapshotImage(f) == ImageOk
    ensures FileFilter(f.mimeType) && f.size <= MaxUploadBytes
  {
    ClientImageTypesPassServerFilter(f.mimeType);
  }

  /**
   * A post created through the form is stored exactly as submitted. Its
   * `published` is what the form said, defaulting to true on the client,
   * so the server's own default (false) never applies.
   */
  lemma FormCreateStoresPayload(d: FinalData, id: int, now: Timestamp)
    ensures NewBlogPost(CreateBody(d), id, now) == BlogPost(id, d.title, d.content, d.excerpt, Some(d.imageUrl), d.category, d.published, now, now)
    ensures NewBlogPost(CreateBody(d), id, now) == BlogRow(CreateBody(d), id, now)
  {
  }

  /**
   * Saving an unchanged post from the edit form changes only `updatedAt`,
   * except that a post without an image URL now stores "".
   */
  lemma EditSaveKeepsPost(post: BlogPost, now: Timestamp)
    ensures MergePatch(post, UpdateBody(PayloadOf(post)), now) == post.(updatedAt := now, imageUrl := Some(post.imageUrl.GetOr("")))
  {
  }

  /**
   * The form of the create scenario: title "A", content "B", excerpt "C", a
   * category of one space, no image URL and no `published`.
   */
  const ScenarioForm := FormData(Some("A"), Some("B"), Some("C"), Some(""), Some(" "), None)

  /**
   * That form gets past the browser's `required` check, and submitting it
   * creates a published post in category "General".
   */
  lemma ScenarioSubmit()
    ensures PassesRequired(ScenarioForm)
    ensures Submit(ScenarioForm, None) == CreatePost(FinalData("A", "B", "C", "General", "", true))
  {
    TrimOfTrimmed("A");
    TrimOfTrimmed("B");
    TrimOfTrimmed("C");
    assert Trim("") == "";
    assert Trim(" ") == "";
  }

  /**
   * The create scenario end to end: the stored post has category "General",
   * is published, can be fetched by its id and appears in the public listing.
   */
  method CreateScenario(now: Timestamp) returns (action: SubmitAction, created: Response, fetched: Response, listed: Response)
    ensures action.CreatePost? && action.data.category == "General" && action.data.published
    ensures created.status == 201 && created.body.PostBody?
    ensures created.body.post.category == "General" && created.body.post.published
    ensures fetched == Response(200, PostBody(created.body.post))
    ensures listed.status == 200 && listed.body.PostList? && created.body.post in listed.body.posts
  {
    ScenarioSubmit();
    action := Submit(ScenarioForm, None);
    var store := FreshStore(now);
    created := CreateBlogPostRoute(store, CreateBody(action.data), now);
    var id: nat := created.body.post.id;
    FetchStored(store, id);
    fetched := GetBlogPostById(store, Decimal(id));
    listed := ListBlogPosts(store);
  }

  /**
   * The same title, content and excerpt sent straight to the API with `published` left out and
   * an empty category: the server neither defaults the category nor publishes
   * the post, which can be fetched by id but is left out of the public listing.
   */
  method RawCreateScenario(now: Timestamp) returns (created: Response, fetched: Response, listed: Response)
    ensures created.status == 201 && created.body.PostBody?
    ensures created.body.post.category == "" && !created.body.post.published
    ensures fetched == Response(200, PostBody(created.body.post))
    ensures listed.status == 200 && listed.body.PostList? && created.body.post !in listed.body.posts
  {
    var body := InsertBlogPost("A", "B", "C", None, "", None);
    var store := FreshStore(now);
    created := CreateBlogPostRoute(store, body, now);
    var id: nat := created.body.post.id;
    FetchStored(store, id);
    fetched := GetBlogPostById(store, Decimal(id));
    listed := ListBlogPosts(store);
  }

  /**
   * Create, fetch, update one field, fetch again: the second fetch differs
   * from the first only in that field and in `updatedAt`.
   */
  method UpdateOneFieldScenario(ins: InsertBlogPost, title: string, t0: Timestamp, t1: Timestamp)
    returns (before: Response, after: Response)
    ensures before.status == 200 && after.status == 200 && before.body.PostBody? && after.body.PostBody?
    ensures after.body.post == before.body.post.(title := title, updatedAt := t1)
  {
    var store := FreshStore(t0);
    var created := CreateBlogPostRoute(store, ins, t0);
    var id: nat := created.body.post.id;
    FetchStored(store, id);
    before := GetBlogPostById(store, Decimal(id));
    ParseIntOfDecimal(id, "");
    assert Decimal(id) + "" == Decimal(id);
    var updated := UpdateBlogPostRoute(store, Decimal(id), EmptyPatch.(title := Some(title)), t1);
    FetchStored(store, id);
    after := GetBlogPostById(store, Decimal(id));
  }

  /**
   * A successful upload answers with the id of the record it built, but the
   * memory back end keeps no record: the list of uploaded files stays empty.
   */
  method UploadLeavesNoRecord(file: RequestFile, config: CloudConfig, url: string, nameClock: nat, idClock: nat, now: Timestamp)
    returns (out: UploadOutcome, files: seq<UploadedFile>)
    requires FileFilter(file.mimetype) && file.size <= MaxUploadBytes && Configured(config)
    ensures out == Handled(Response(200, UploadBody(url, idClock, "Image uploaded successfully")))
    ensures files == []
  {
    var store := FreshStore(now);
    var attempted, record;
    out, attempted, record := UploadBlogImage(store, Some(file), config, Ok(url), nameClock, idClock, now);
    files := store.GetUploadedFiles();
  }
}
