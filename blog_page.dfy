/**
 * The admin form of client/src/pages/blog.tsx as component state: the form
 * fields, the picked image file, the preview, the post being edited and
 * whether the dialog is open. Each React state setter becomes an assignment
 * to a field; each handler becomes a method that says which fields it sets
 * and to what. The network calls the handlers make are not part of the
 * model: an image upload's outcome arrives as a separate method call, and a
 * submit returns the mutation it would issue.
 */
module BlogPage {
  import opened Wrappers
  import opened JsText
  import opened Schema
  import opened BlogForm

  class BlogPageState {
    var formData: FormData
    var imageFile: Option<ImageFile>
    var imagePreview: string
    var editingPost: Option<BlogPost>
    var dialogOpen: bool

    /** The state the page mounts with: the initial form, no file, no preview, nothing edited, dialog closed. */
    constructor ()
      ensures formData == InitialForm && imageFile == None && imagePreview == ""
      ensures editingPost == None && !dialogOpen
    {
      formData := InitialForm;
      imageFile := None;
      imagePreview := "";
      editingPost := None;
      dialogOpen := false;
    }

    /** `resetForm`: the initial form, no file and no preview; the edited post and the dialog are left alone. */
    method ResetForm()
      modifies this`formData, this`imageFile, this`imagePreview
      ensures formData == InitialForm && imageFile == None && imagePreview == ""
    {
      formData := InitialForm;
      imageFile := None;
      imagePreview := "";
    }

    /** "Create New Post": nothing is being edited, the form is reset and the dialog opens. */
    method OpenForCreate()
      modifies this`formData, this`imageFile, this`imagePreview, this`editingPost, this`dialogOpen
      ensures formData == InitialForm && imageFile == None && imagePreview == ""
      ensures editingPost == None && dialogOpen
    {
      editingPost := None;
      ResetForm();
      dialogOpen := true;
    }

    /**
     * Cancel, and the success callbacks of both mutations: the dialog closes,
     * nothing is being edited and the form is reset.
     */
    method CloseAndReset()
      modifies this`formData, this`imageFile, this`imagePreview, this`editingPost, this`dialogOpen
      ensures formData == InitialForm && imageFile == None && imagePreview == ""
      ensures editingPost == None && !dialogOpen
    {
      dialogOpen := false;
      editingPost := None;
      ResetForm();
    }

    /**
     * The dialog's own `onOpenChange(false)`: Escape, a click outside or the
     * close button. Only the dialog closes; the form, the picked file, the
     * preview and the edited post stay as they were.
     */
    method Dismiss()
      modifies this`dialogOpen
      ensures !dialogOpen
    {
      dialogOpen := false;
    }

    /**
     * "Create Your First Post", shown when no post is listed: the dialog
     * opens with no reset, so it shows whatever the form and the edited post
     * last held.
     */
    method OpenWithoutReset()
      modifies this`dialogOpen
      ensures dialogOpen
    {
      dialogOpen := true;
    }

    /**
     * `handleEdit`: the post becomes the one edited, its fields fill the form
     * (a null image URL as ""), the preview shows its image URL and the dialog
     * opens; the picked file is left as it was.
     */
    method HandleEdit(post: BlogPost)
      modifies this`editingPost, this`formData, this`imagePreview, this`dialogOpen
      ensures editingPost == Some(post) && formData == EditForm(post)
      ensures imagePreview == post.imageUrl.GetOr("") && dialogOpen
    {
      editingPost := Some(post);
      formData := EditForm(post);
      imagePreview := post.imageUrl.GetOr("");
      dialogOpen := true;
    }

    /** A text input or the published switch changes its own field of the form and nothing else. */
    method FieldChanged(e: FieldEdit)
      modifies this`formData
      ensures formData == ApplyEdit(old(formData), e)
    {
      formData := ApplyEdit(formData, e);
    }

    /**
     * `handleImageUpload` up to the upload request: no file does nothing; a
     * file of a type outside the whitelist is refused with no state change;
     * an allowed one becomes the picked file and its upload starts.
     */
    method HandleImageUpload(file: Option<ImageFile>) returns (uploading: bool)
      modifies this`imageFile
      ensures uploading <==> file.Some? && IsAllowedImageType(file.value.mimeType)
      ensures uploading ==> imageFile == file
      ensures !uploading ==> imageFile == old(imageFile)
    {
      uploading := false;
      if file.None? {
        return;
      }
      if !IsAllowedImageType(file.value.mimeType) {
        return;
      }
      imageFile := file;
      uploading := true;
    }

    /** The FileReader's load: the preview shows the data URL it read. */
    method PreviewRead(dataUrl: string)
      modifies this`imagePreview
      ensures imagePreview == dataUrl
    {
      imagePreview := dataUrl;
    }

    /** The upload answered with a URL: only the form's image URL changes, the other fields as they are now. */
    method UploadSucceeded(url: string)
      modifies this`formData
      ensures formData == old(formData).(imageUrl := Some(url))
    {
      formData := formData.(imageUrl := Some(url));
    }

    /** The upload failed: the picked file and the preview are cleared; the form keeps its image URL. */
    method UploadFailed()
      modifies this`imageFile, this`imagePreview
      ensures imageFile == None && imagePreview == ""
    {
      imageFile := None;
      imagePreview := "";
    }

    /**
     * Typing in the image URL field: the form holds the typed text, the
     * preview shows it only when it is a web or data URL, and the picked file
     * is dropped when the text is non-empty and not a data URL.
     */
    method ImageUrlChanged(url: string)
      modifies this`formData, this`imagePreview, this`imageFile
      ensures formData == old(formData).(imageUrl := Some(url))
      ensures imagePreview == UrlPreview(url)
      ensures imageFile == (if UrlClearsFile(url) then None else old(imageFile))
    {
      formData := formData.(imageUrl := Some(url));
      if url != "" && (StartsWith(url, "http") || StartsWith(url, "data:")) {
        imagePreview := url;
      } else {
        imagePreview := "";
      }
      if url != "" && !StartsWith(url, "data:") {
        imageFile := None;
      }
    }

    /**
     * `handleSubmit`: the three checks in order, each stopping with its own
     * alert, then an update of the edited post or a create, carrying the
     * normalised payload. The state does not change.
     */
    method HandleSubmit() returns (action: SubmitAction)
      ensures action == Submit(formData, editingPost)
    {
      if !Filled(formData.title) {
        return Alert(MissingTitle);
      }
      if !Filled(formData.content) {
        return Alert(MissingContent);
      }
      if !Filled(formData.excerpt) {
        return Alert(MissingExcerpt);
      }
      var finalData := FinalData(
        Trim(formData.title.value), Trim(formData.content.value), Trim(formData.excerpt.value),
        TrimmedOr(formData.category, "General"), TrimmedOr(formData.imageUrl, ""), formData.published.GetOr(true));
      if editingPost.Some? {
        action := UpdatePost(editingPost.value.id, finalData);
      } else {
        action := CreatePost(finalData);
      }
    }

    /**
     * The form's submit event: the browser first checks the `required`
     * inputs and, when one is empty, refuses the submit without calling
     * `handleSubmit`; otherwise `handleSubmit` runs.
     */
    method RequestSubmit() returns (action: Option<SubmitAction>)
      ensures action == (if PassesRequired(formData) then Some(Submit(formData, editingPost)) else None)
    {
      if !PassesRequired(formData) {
        return None;
      }
      var handled := HandleSubmit();
      action := Some(handled);
    }
  }

  /**
   * Submitting right after "Create New Post": the browser refuses it, since
   * the fresh form is empty; `handleSubmit` called on that form would stop at
   * the title check.
   */
  method SubmitFreshForm() returns (submitted: Option<SubmitAction>, handled: SubmitAction)
    ensures submitted == None
    ensures handled == Alert(MissingTitle)
  {
    var page := new BlogPageState();
    page.OpenForCreate();
    submitted := page.RequestSubmit();
    assert Trim("") == "";
    handled := page.HandleSubmit();
  }

  /**
   * Opening a post for editing, dismissing the dialog and reopening it with
   * "Create Your First Post" still edits that post: saving sends an update of
   * it, not a create.
   */
  method ReopenAfterDismissKeepsEdit(page: BlogPageState, post: BlogPost) returns (action: Option<SubmitAction>)
    requires PostIsNormal(post)
    modifies page
    ensures page.dialogOpen && page.editingPost == Some(post)
    ensures action == Some(UpdatePost(post.id, PayloadOf(post)))
  {
    page.HandleEdit(post);
    page.Dismiss();
    page.OpenWithoutReset();
    EditThenSubmit(post);
    action := page.RequestSubmit();
  }

  /**
   * Opening a post for editing and saving at once sends its own fields back
   * as an update of that post, whatever the page held before.
   */
  method EditThenSave(page: BlogPageState, post: BlogPost) returns (action: SubmitAction)
    requires PostIsNormal(post)
    modifies page
    ensures action == UpdatePost(post.id, PayloadOf(post))
  {
    page.HandleEdit(post);
    action := page.HandleSubmit();
    EditThenSubmit(post);
  }

  /**
   * A failed upload after a successful pick leaves the form's image URL as
   * it was before the pick: a submit then sends the earlier URL.
   */
  method FailedUploadKeepsUrl(page: BlogPageState, file: ImageFile) returns (uploading: bool)
    requires IsAllowedImageType(file.mimeType)
    modifies page
    ensures uploading
    ensures page.formData == old(page.formData) && page.imageFile == None && page.imagePreview == ""
  {
    uploading := page.HandleImageUpload(Some(file));
    page.UploadFailed();
  }
}
