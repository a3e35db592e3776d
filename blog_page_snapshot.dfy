/**
 * The admin form of the earlier page attached_assets/blog_1751369541499.tsx.
 * It has the same state as the current page, and one difference in how an
 * image is handled. Nothing is uploaded: a picked image is read into a data
 * URL, and that URL becomes both the preview and the form's image URL. The
 * read finishes after the handler has returned. Its callback then writes the
 * form value captured when the file was picked. The model keeps that
 * captured form in `pendingRead` until the read completes.
 */
module BlogPageSnapshot {
  import opened Wrappers
  import opened Schema
  import opened BlogForm

  class SnapshotPageState {
    var formData: FormData
    var imageFile: Option<ImageFile>
    var imagePreview: string
    var editingPost: Option<BlogPost>
    var dialogOpen: bool
    /** The form a started FileReader's callback closed over, while that read is in flight. */
    var pendingRead: Option<FormData>

    /** The state the page mounts with: the initial form, no file, no preview, nothing edited, no read. */
    constructor ()
      ensures formData == InitialForm && imageFile == None && imagePreview == ""
      ensures editingPost == None && !dialogOpen && pendingRead == None
    {
      formData := InitialForm;
      imageFile := None;
      imagePreview := "";
      editingPost := None;
      dialogOpen := false;
      pendingRead := None;
    }

    /** `resetForm`: the initial form, no file and no preview. */
    method ResetForm()
      modifies this`formData, this`imageFile, this`imagePreview
      ensures formData == InitialForm && imageFile == None && imagePreview == ""
    {
      formData := InitialForm;
      imageFile := None;
      imagePreview := "";
    }

    /** "Create New Post": nothing is being edited, the form is reset and the dialog opens. */
    method OpenForCreate()
      modifies this`formData, this`imageFile, this`imagePreview, this`editingPost, this`dialogOpen
      ensures formData == InitialForm && imageFile == None && imagePreview == ""
      ensures editingPost == None && dialogOpen
    {
      editingPost := None;
      ResetForm();
      dialogOpen := true;
    }

    /** Cancel, and the success callbacks of both mutations: close, forget the edited post, reset. */
    method CloseAndReset()
      modifies this`formData, this`imageFile, this`imagePreview, this`editingPost, this`dialogOpen
      ensures formData == InitialForm && imageFile == None && imagePreview == ""
      ensures editingPost == None && !dialogOpen
    {
      dialogOpen := false;
      editingPost := None;
      ResetForm();
    }

    /** The dialog's own `onOpenChange(false)` (Escape, a click outside): only the dialog closes. */
    method Dismiss()
      modifies this`dialogOpen
      ensures !dialogOpen
    {
      dialogOpen := false;
    }

    /** `handleEdit`: as in the current page, a null image URL becoming "" in the form and the preview. */
    method HandleEdit(post: BlogPost)
      modifies this`editingPost, this`formData, this`imagePreview, this`dialogOpen
      ensures editingPost == Some(post) && formData == EditForm(post)
      ensures imagePreview == post.imageUrl.GetOr("") && dialogOpen
    {
      editingPost := Some(post);
      formData := EditForm(post);
      imagePreview := post.imageUrl.GetOr("");
      dialogOpen := true;
    }

    /** A text input or the published switch changes its own field of the form and nothing else. */
    method FieldChanged(e: FieldEdit)
      modifies this`formData
      ensures formData == ApplyEdit(old(formData), e)
    {
      formData := ApplyEdit(formData, e);
    }

    /**
     * `handleImageUpload`: no file does nothing and reports no check. A file
     * is checked for its type and then for its size. A refused file changes
     * nothing. An accepted one becomes the picked file, and a read starts that
     * has captured the current form.
     */
    method HandleImageUpload(file: Option<ImageFile>) returns (check: Option<ImageCheck>)
      modifies this`imageFile, this`pendingRead
      ensures file.None? <==> check.None?
      ensures file.Some? ==> check == Some(CheckSnapshotImage(file.value))
      ensures check == Some(ImageOk) ==> imageFile == file && pendingRead == Some(old(formData))
      ensures check != Some(ImageOk) ==> imageFile == old(imageFile) && pendingRead == old(pendingRead)
    {
      if file.None? {
        return None;
      }
      if !IsAllowedImageType(file.value.mimeType) {
        return Some(WrongType);
      }
      if file.value.size > MaxClientImageBytes {
        return Some(TooLarge);
      }
      imageFile := file;
      pendingRead := Some(formData);
      check := Some(ImageOk);
    }

    /**
     * The read finished with a data URL: the preview shows it, and the form
     * becomes the captured one with that image URL. Edits made since the pick
     * are overwritten.
     */
    method ImageRead(dataUrl: string)
      requires pendingRead.Some?
      modifies this`imagePreview, this`formData, this`pendingRead
      ensures imagePreview == dataUrl
      ensures formData == old(pendingRead).value.(imageUrl := Some(dataUrl))
      ensures pendingRead == None
    {
      imagePreview := dataUrl;
      formData := pendingRead.value.(imageUrl := Some(dataUrl));
      pendingRead := None;
    }

    /** Typing in the image URL field: the form holds the text, and the preview shows it whatever it is. */
    method ImageUrlChanged(url: string)
      modifies this`formData, this`imagePreview
      ensures formData == old(formData).(imageUrl := Some(url))
      ensures imagePreview == url
    {
      formData := formData.(imageUrl := Some(url));
      imagePreview := url;
    }

    /** `handleSubmit`: the same checks, order and payload as the current page. */
    method HandleSubmit() returns (action: SubmitAction)
      ensures action == Submit(formData, editingPost)
    {
      match Normalise(formData)
      case Err(missing) =>
        action := Alert(missing);
      case Ok(finalData) =>
        if editingPost.Some? {
          action := UpdatePost(editingPost.value.id, finalData);
        } else {
          action := CreatePost(finalData);
        }
    }

    /** The form's submit event: refused by the browser while a `required` input is empty, else `handleSubmit`. */
    method RequestSubmit() returns (action: Option<SubmitAction>)
      ensures action == (if PassesRequired(formData) then Some(Submit(formData, editingPost)) else None)
    {
      if !PassesRequired(formData) {
        return None;
      }
      var handled := HandleSubmit();
      action := Some(handled);
    }
  }

  /**
   * A title typed while an accepted image is still being read is lost when
   * the read completes. The form returns to what it was at the pick, plus the
   * data URL.
   */
  method TitleTypedDuringReadIsLost(file: ImageFile, title: string, dataUrl: string) returns (form: FormData)
    requires CheckSnapshotImage(file) == ImageOk
    ensures form == InitialForm.(imageUrl := Some(dataUrl))
    ensures title != "" ==> form.title != Some(title)
  {
    var page := new SnapshotPageState();
    var check := page.HandleImageUpload(Some(file));
    page.FieldChanged(EditTitle(title));
    page.ImageRead(dataUrl);
    form := page.formData;
  }

  /**
   * An image of exactly 5 MiB in an allowed type is accepted. Once it has been
   * read, the form's image URL is the data URL, and a valid submit sends it
   * trimmed.
   */
  method AcceptedImageReachesPayload(page: SnapshotPageState, file: ImageFile, dataUrl: string)
    returns (check: Option<ImageCheck>)
    requires IsAllowedImageType(file.mimeType) && file.size == MaxClientImageBytes
    modifies page
    ensures check == Some(ImageOk)
    ensures page.formData.imageUrl == Some(dataUrl) && page.imagePreview == dataUrl
    ensures Normalise(page.formData).Ok? ==> Normalise(page.formData).value.imageUrl == TrimmedOr(Some(dataUrl), "")
  {
    check := page.HandleImageUpload(Some(file));
    page.ImageRead(dataUrl);
  }
}
