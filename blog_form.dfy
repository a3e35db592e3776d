/**
 * The pure logic of the blog admin form, identical in client/src/pages/blog.tsx
 * and in its earlier snapshot: submit validation and normalisation, the form
 * an edit starts from, the client's image-type whitelist and the snapshot's
 * size ceiling, and the preview rule of the image URL field.
 */
module BlogForm {
  import opened Wrappers
  import opened JsText
  import opened Schema

  /** `formData`, a `Partial<InsertBlogPost>`: any field may be missing. */
  datatype FormData = FormData(
    title: Option<string>, content: Option<string>, excerpt: Option<string>,
    imageUrl: Option<string>, category: Option<string>, published: Option<bool>)

  /** The state the form starts in and returns to: every text field empty, `published` on. */
  const InitialForm := FormData(Some(""), Some(""), Some(""), Some(""), Some(""), Some(true))

  /** One edit of a form input: a text field's new value or the published switch. */
  datatype FieldEdit =
    | EditTitle(title: string)
    | EditCategory(category: string)
    | EditExcerpt(excerpt: string)
    | EditContent(content: string)
    | TogglePublished(published: bool)

  /** `setFormData({ ...formData, field: value })`: the edited field takes the value, the rest stay. */
  function ApplyEdit(f: FormData, e: FieldEdit): (g: FormData)
    ensures g.title == (if e.EditTitle? then Some(e.title) else f.title)
    ensures g.category == (if e.EditCategory? then Some(e.category) else f.category)
    ensures g.excerpt == (if e.EditExcerpt? then Some(e.excerpt) else f.excerpt)
    ensures g.content == (if e.EditContent? then Some(e.content) else f.content)
    ensures g.published == (if e.TogglePublished? then Some(e.published) else f.published)
    ensures g.imageUrl == f.imageUrl
  {
    match e
    case EditTitle(t) => f.(title := Some(t))
    case EditCategory(c) => f.(category := Some(c))
    case EditExcerpt(x) => f.(excerpt := Some(x))
    case EditContent(c) => f.(content := Some(c))
    case TogglePublished(b) => f.(published := Some(b))
  }

  /** `finalData`, the payload a valid submit sends. */
  datatype FinalData = FinalData(
    title: string, content: string, excerpt: string,
    category: string, imageUrl: string, published: bool)

  /** Which check stopped a submit (each has its own alert). */
  datatype MissingField = MissingTitle | MissingContent | MissingExcerpt

  /** What a submit does: alert and stop, or issue a create or an update mutation. */
  datatype SubmitAction = Alert(missing: MissingField) | CreatePost(data: FinalData) | UpdatePost(id: int, data: FinalData)

  /** An image the user picked: name, MIME type and size in bytes. */
  datatype ImageFile = ImageFile(name: string, mimeType: string, size: nat)

  /** `x?.trim()` is truthy: the field is present and not blank. */
  predicate Filled(o: Option<string>) {
    o.Some? && Trim(o.value) != ""
  }

  /** `x?.trim() || fallback`. */
  function TrimmedOr(o: Option<string>, fallback: string): string {
    if Filled(o) then Trim(o.value) else fallback
  }

  /** What every payload a valid submit produces looks like. */
  predicate IsNormal(d: FinalData) {
    && d.title != "" && IsTrimmed(d.title)
    && d.content != "" && IsTrimmed(d.content)
    && d.excerpt != "" && IsTrimmed(d.excerpt)
    && d.category != "" && IsTrimmed(d.category)
    && IsTrimmed(d.imageUrl)
  }

  /**
   * The checks of `handleSubmit`, in their order (title, then content, then
   * excerpt), and the `finalData` built when all pass: text trimmed, a blank
   * category becomes "General", a blank image URL becomes "", and a missing
   * `published` becomes true.
   */
  function Normalise(f: FormData): (r: Result<FinalData, MissingField>)
    ensures r == Err(MissingTitle) <==> !Filled(f.title)
    ensures r == Err(MissingContent) <==> Filled(f.title) && !Filled(f.content)
    ensures r == Err(MissingExcerpt) <==> Filled(f.title) && Filled(f.content) && !Filled(f.excerpt)
    ensures r.Ok? <==> Filled(f.title) && Filled(f.content) && Filled(f.excerpt)
    ensures r.Ok? ==> IsNormal(r.value)
    ensures r.Ok? ==> (r.value.title == Trim(f.title.value) && r.value.content == Trim(f.content.value)
      && r.value.excerpt == Trim(f.excerpt.value))
    ensures r.Ok? ==> (r.value.category == TrimmedOr(f.category, "General")
      && r.value.imageUrl == TrimmedOr(f.imageUrl, "") && r.value.published == f.published.GetOr(true))
  {
    if !Filled(f.title) then Err(MissingTitle)
    else if !Filled(f.content) then Err(MissingContent)
    else if !Filled(f.excerpt) then Err(MissingExcerpt)
    else Ok(Payload(f))
  }

  /** `finalData` of a form that passed the checks: every field trimmed, so the payload is normal. */
  function Payload(f: FormData): (d: FinalData)
    requires Filled(f.title) && Filled(f.content) && Filled(f.excerpt)
    ensures IsNormal(d)
  {
    assert IsTrimmed("General");
    FinalData(
      Trim(f.title.value), Trim(f.content.value), Trim(f.excerpt.value),
      TrimmedOr(f.category, "General"), TrimmedOr(f.imageUrl, ""), f.published.GetOr(true))
  }

  /** The form holding a payload's fields. */
  function FormOf(d: FinalData): FormData {
    FormData(Some(d.title), Some(d.content), Some(d.excerpt), Some(d.imageUrl), Some(d.category), Some(d.published))
  }

  /** A trimmed field passes through `x?.trim() || fallback` unchanged, unless it is blank and the fallback is not. */
  lemma TrimmedFieldKept(s: string, fallback: string)
    requires IsTrimmed(s) && (s != "" || fallback == "")
    ensures TrimmedOr(Some(s), fallback) == s
    ensures s != "" ==> Filled(Some(s))
  {
    TrimOfTrimmed(s);
  }

  /** Normalising is idempotent: a form holding a normalised payload submits that very payload. */
  lemma NormaliseIdempotent(d: FinalData)
    requires IsNormal(d)
    ensures Normalise(FormOf(d)) == Ok(d)
  {
    var f := FormOf(d);
    TrimmedFieldKept(d.title, "");
    TrimmedFieldKept(d.content, "");
    TrimmedFieldKept(d.excerpt, "");
    TrimmedFieldKept(d.category, "General");
    TrimmedFieldKept(d.imageUrl, "");
    assert Filled(f.title) && Filled(f.content) && Filled(f.excerpt);
    var r := Normalise(f);
    assert r.Ok?;
    assert r.value.title == d.title && r.value.content == d.content && r.value.excerpt == d.excerpt;
    assert r.value.category == d.category && r.value.imageUrl == d.imageUrl && r.value.published == d.published;
  }

  /**
   * `handleSubmit`: nothing is sent unless the checks pass; then an update of
   * the edited post when one is being edited, a create otherwise.
   */
  function Submit(f: FormData, editing: Option<BlogPost>): (r: SubmitAction)
    ensures r.Alert? <==> Normalise(f).Err?
    ensures r.Alert? ==> r.missing == Normalise(f).error
    ensures r.UpdatePost? <==> Normalise(f).Ok? && editing.Some?
    ensures r.CreatePost? <==> Normalise(f).Ok? && editing.None?
    ensures r.UpdatePost? ==> r.id == editing.value.id
    ensures !r.Alert? ==> r.data == Normalise(f).value
  {
    match Normalise(f)
    case Err(m) => Alert(m)
    case Ok(d) =>
      match editing
      case Some(p) => UpdatePost(p.id, d)
      case None => CreatePost(d)
  }

  /** The text an input shows for a field: `formData.x || ""`. */
  function Shown(o: Option<string>): string {
    o.GetOr("")
  }

  /**
   * The browser's own check of the form's `required` inputs (title,
   * category, excerpt and content): the submit event reaches `handleSubmit`
   * only when each of them shows some text. White space counts as text.
   */
  predicate PassesRequired(f: FormData) {
    Shown(f.title) != "" && Shown(f.category) != "" && Shown(f.excerpt) != "" && Shown(f.content) != ""
  }

  /**
   * Behind the browser's check, each alert of `handleSubmit` and the
   * "General" fallback arise only from a field that holds white space and
   * nothing else.
   */
  lemma RequiredLeavesOnlyBlankText(f: FormData, editing: Option<BlogPost>)
    requires PassesRequired(f)
    ensures Submit(f, editing) == Alert(MissingTitle) ==> f.title.Some? && f.title.value != "" && Trim(f.title.value) == ""
    ensures Submit(f, editing) == Alert(MissingContent) ==> f.content.Some? && f.content.value != "" && Trim(f.content.value) == ""
    ensures Submit(f, editing) == Alert(MissingExcerpt) ==> f.excerpt.Some? && f.excerpt.value != "" && Trim(f.excerpt.value) == ""
    ensures !Filled(f.category) ==> f.category.Some? && f.category.value != "" && Trim(f.category.value) == ""
  {
  }

  /** The form `handleEdit` fills from a post: its fields, a null image URL as "". */
  function EditForm(post: BlogPost): (f: FormData)
    ensures f.imageUrl == Some(post.imageUrl.GetOr(""))
    ensures f.title == Some(post.title) && f.content == Some(post.content) && f.excerpt == Some(post.excerpt)
    ensures f.category == Some(post.category) && f.published == Some(post.published)
  {
    FormData(Some(post.title), Some(post.content), Some(post.excerpt),
             Some(post.imageUrl.GetOr("")), Some(post.category), Some(post.published))
  }

  /** A stored post whose fields are what a submit would have produced. */
  predicate PostIsNormal(post: BlogPost) {
    IsNormal(PayloadOf(post))
  }

  /** The payload that re-submits a post unchanged. */
  function PayloadOf(post: BlogPost): FinalData {
    FinalData(post.title, post.content, post.excerpt, post.category, post.imageUrl.GetOr(""), post.published)
  }

  /** Opening a normal post for editing and submitting at once sends the post's own fields back as an update of it. */
  lemma EditThenSubmit(post: BlogPost)
    requires PostIsNormal(post)
    ensures Submit(EditForm(post), Some(post)) == UpdatePost(post.id, PayloadOf(post))
  {
    NormaliseIdempotent(PayloadOf(post));
    assert EditForm(post) == FormOf(PayloadOf(post));
  }

  // ---------------------------------------------------------------------------
  // Images

  /** The MIME types the client accepts for an upload. */
  const AllowedImageTypes: seq<string> := ["image/jpeg", "image/jpg", "image/png", "image/webp"]

  predicate IsAllowedImageType(t: string): (b: bool)
    ensures b <==> t == "image/jpeg" || t == "image/jpg" || t == "image/png" || t == "image/webp"
  {
    t in AllowedImageTypes
  }

  /** The snapshot's size ceiling: 5 MiB. */
  const MaxClientImageBytes := 5 * 1024 * 1024

  datatype ImageCheck = ImageOk | WrongType | TooLarge

  /** The snapshot's checks of a picked image: the type first, then the size; exactly 5 MiB passes. */
  function CheckSnapshotImage(f: ImageFile): (r: ImageCheck)
    ensures r == WrongType <==> !IsAllowedImageType(f.mimeType)
    ensures r == TooLarge <==> IsAllowedImageType(f.mimeType) && f.size > MaxClientImageBytes
    ensures r == ImageOk <==> IsAllowedImageType(f.mimeType) && f.size <= MaxClientImageBytes
  {
    if !IsAllowedImageType(f.mimeType) then WrongType
    else if f.size > MaxClientImageBytes then TooLarge
    else ImageOk
  }

  /** The preview for a typed image URL in blog.tsx: the URL itself if it is a web or data URL, else nothing. */
  function UrlPreview(url: string): (r: string)
    ensures StartsWith(url, "http") || StartsWith(url, "data:") ==> r == url
    ensures !(StartsWith(url, "http") || StartsWith(url, "data:")) ==> r == ""
  {
    if url != "" && (StartsWith(url, "http") || StartsWith(url, "data:")) then url else ""
  }

  /** Typing a URL in blog.tsx drops the picked file unless the field is empty or holds a data URL. */
  predicate UrlClearsFile(url: string): (b: bool)
    ensures b ==> url != []
  {
    url != "" && !StartsWith(url, "data:")
  }

  /**
   * What typing a URL does, by kind: a data URL is previewed and keeps the
   * picked file, a web URL is previewed and drops it, and any other non-empty
   * text drops the file and shows no preview.
   */
  lemma TypedUrlEffects(url: string)
    ensures StartsWith(url, "data:") ==> !UrlClearsFile(url) && UrlPreview(url) == url
    ensures StartsWith(url, "http") ==> UrlClearsFile(url) && UrlPreview(url) == url
    ensures url != [] && !StartsWith(url, "http") && !StartsWith(url, "data:") ==>
              UrlClearsFile(url) && UrlPreview(url) == []
  {
    if StartsWith(url, "http") {
      assert url[..4][0] == url[0] == 'h';
    }
  }
}
