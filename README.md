# Blog back end of the auto-parts site, modelled in Dafny

This project models the part of the site that holds state and makes decisions: the
blog and its admin tools.

- **Storage.** The in-memory store `MemStorage` keeps users, quotes, products and blog
  posts in maps keyed by id, with one id counter per table. It seeds three sample
  products and one sample post, and offers create/read/update/delete for posts.
  It builds, but does not keep, uploaded-file records.
- **Routes.** The HTTP handlers cover blog posts, a product by id, the admin login and
  token check, and the image upload pipeline: multer's filter and size limit, then the
  handler's guards, the host call and the metadata it records.
- **Schema.** The record and insert shapes of the tables, with the `blog_posts`
  column defaults.
- **Client pages.** The admin form of the blog page, in its current version and in an
  earlier snapshot. This covers submit validation and normalisation, editing, resetting
  and the image handling.
- **JavaScript semantics.** The JavaScript built-ins the code relies on are written
  out: `trim`, `startsWith`, `replace` with a string pattern, `parseInt` with no radix,
  and the decimal rendering of `Date.now()`.

Modules, one file each:

| file | module | what it holds |
|---|---|---|
| wrappers.dfy | `Wrappers` | `Option` and `Result` |
| jstext.dfy | `JsText` | the string built-ins and their laws |
| schema.dfy | `Schema` | records, insert types, table defaults |
| storage.dfy | `Storage` | record builders, the patch merge, seeding, class `MemStorage` |
| routes.dfy | `Routes` | handlers as functions of the store, or methods that change it |
| blog_form.dfy | `BlogForm` | the pure logic shared by both client pages |
| blog_page.dfy | `BlogPage` | class `BlogPageState`: component state of the current page |
| blog_page_snapshot.dfy | `BlogPageSnapshot` | class `SnapshotPageState`: the earlier page |
| pipeline.dfy | `Pipeline` | client-to-server lemmas and request scenarios on a fresh store |

Modelling choices:

- **Listing order.** A JavaScript `Map` iterates in insertion order. Ids are handed out
  in increasing order, and `set` on an existing key keeps its slot. So every listing is
  in ascending id order, and the model states that.
- **Clocks.** `Date.now()` and `new Date()` are `nat` parameters, because the clock is
  outside the model.
- **Image host.** The result of compressing and uploading an image (a URL or a thrown
  value) is a parameter of the upload method.
- **Environment.** The image-host settings are a parameter.
- **React state.** Each state setter is an assignment to a field of the page class. A
  handler that awaits the network is split at the await. For example, the upload's
  success and failure continuations are methods of their own.

## Model

| member | source | states |
|---|---|---|
| `Schema.BlogRow` | shared/schema.ts:49-65 | A row built by the table gets the given id and both timestamps equal to the insertion time. A missing `published` becomes true (the column default). The insert fields survive the round trip. |
| `Schema.QuoteRow` | shared/schema.ts:11-34 | A quote row keeps every insert field and adds the id and the creation time. The insert is recovered exactly. |
| `Storage.ListWhere` | server/storage.ts:257-259 | `Array.from(map.values()).filter(keep)`: exactly the stored records that pass the filter, each stored under its own id, in ascending id order. |
| `Storage.NewBlogPost` | server/storage.ts:265-281 | A created post has the given id and `createdAt == updatedAt == now`. A missing `imageUrl` stays null. `published` is true only when the insert says true. The insert fields round-trip. |
| `Storage.PublishedDefaultsDisagree` | server/storage.ts:275 | The memory store's post differs from the table's row only in `published`, and only when `published` is left out. The store then gives false, the table true. |
| `Storage.MergePatch` | server/storage.ts:283-290 | An update keeps the id and `createdAt`, sets `updatedAt` to now, takes every supplied field and keeps every omitted one. |
| `Storage.MergeEmptyPatch` | server/storage.ts:283-290 | An empty update changes only `updatedAt`. |
| `Storage.MergeComposes` | server/storage.ts:283-290 | Two updates in a row equal one update with the combined patch, the later field winning. |
| `Storage.MergeIdempotent` | server/storage.ts:283-290 | Applying the same update twice is the same as applying it once at the later time. |
| `Storage.NewProduct` | server/storage.ts:250-255 | A created product copies the insert. `imageUrl` is null exactly when it was missing or empty. |
| `Storage.EmptyImageUrlKeptForPostsDroppedForProducts` | server/storage.ts:250-281 | An empty image URL is stored as "" for a post, whose default applies only to a missing value, but as null for a product, whose default applies to any falsy value. |
| `Storage.NewUser` | server/storage.ts:216-221 | A created user is the insert plus its id. |
| `Storage.CreateUserIgnoresUniqueness` | server/storage.ts:216-221 | Creating a user under a name already taken breaks the unique constraint of `users.username`. |
| `Storage.NewUploadedFile` | server/storage.ts:297-309 | The record takes the clock reading as id and the upload time, and copies the other fields from the insert. |
| `Storage.SeededProducts` | server/storage.ts:164-189 | The seeded product table has ids 1..n, the k-th holding the k-th sample product. |
| `Storage.SeededPosts` | server/storage.ts:191-206 | The seeded post table has ids 1..n, the k-th holding the k-th sample post. |
| `Storage.MemStorage.constructor` | server/storage.ts:150-162 | Empty user and quote tables; the three sample products under ids 1-3; the sample post under id 1; every counter just past its table. |
| `Storage.MemStorage.InitializeProducts` | server/storage.ts:164-189 | Creating the sample products in order fills ids 1..3 and advances the counter by three. |
| `Storage.MemStorage.InitializeBlogPosts` | server/storage.ts:191-206 | Creating the sample post fills id 1 and advances the counter by one. |
| `Storage.MemStorage.GetUser` | server/storage.ts:208-210 | A user is found exactly when its id is stored. |
| `Storage.MemStorage.GetUserByUsername` | server/storage.ts:212-214 | The first user in insertion order (the smallest id) with that name, or nothing when no user has it. |
| `Storage.MemStorage.CreateUser` | server/storage.ts:216-221 | The new user takes the counter as a fresh id. Only its table entry and the counter change. |
| `Storage.MemStorage.CreateQuote` | server/storage.ts:223-228 | The new quote takes the counter as a fresh id and the current time. Only its entry and the counter change. |
| `Storage.MemStorage.GetQuotes` | server/storage.ts:230-232 | Every stored quote, in ascending id order. |
| `Storage.MemStorage.GetQuote` | server/storage.ts:234-236 | A quote is found exactly when its id is stored. |
| `Storage.MemStorage.GetProducts` | server/storage.ts:238-240 | Every stored product, in ascending id order. |
| `Storage.MemStorage.GetProduct` | server/storage.ts:242-244 | A product is found exactly when its id is stored. |
| `Storage.MemStorage.GetProductsByCategory` | server/storage.ts:246-248 | Exactly the products of that category, in ascending id order. |
| `Storage.MemStorage.CreateProduct` | server/storage.ts:250-255 | The new product takes the counter as a fresh id. Only its entry and the counter change. |
| `Storage.MemStorage.GetBlogPosts` | server/storage.ts:257-259 | Exactly the published posts, in ascending id order. A draft is never listed. |
| `Storage.MemStorage.GetBlogPost` | server/storage.ts:261-263 | Any stored post, draft or not. Absent exactly when no post has the id. |
| `Storage.MemStorage.CreateBlogPost` | server/storage.ts:265-281 | The new post gets an id no stored post has, above every stored id. No other post changes. |
| `Storage.MemStorage.UpdateBlogPost` | server/storage.ts:283-290 | An absent id returns nothing and creates nothing. A present one is merged with the update and stored back. Other posts are untouched. |
| `Storage.MemStorage.DeleteBlogPost` | server/storage.ts:292-294 | Returns true exactly when the id was stored. Afterwards it is gone and the other posts remain. |
| `Storage.MemStorage.CreateUploadedFile` | server/storage.ts:297-309 | Returns the built record and stores nothing. |
| `Storage.MemStorage.GetUploadedFiles` | server/storage.ts:311-313 | Always empty. |
| `Storage.DeleteTwice` | server/storage.ts:292-294 | Deleting an id twice: the first call reports whether it was stored, the second reports false. |
| `Routes.ListBlogPosts` | dist/server/routes.js:176-185 | 200 with exactly the stored published posts: each listed post is the stored one under its id, every published post is listed, no draft is, and they come in ascending id (creation) order. |
| `Routes.GetBlogPostById` | dist/server/routes.js:186-202 | Checked in order: an id `parseInt` cannot read gives 400, an absent id gives 404, otherwise 200 with the post. |
| `Routes.GetByDecimalId` | dist/server/routes.js:186-202 | A decimal id is never 400. It succeeds exactly when the post exists, published or not. |
| `Routes.CreateBlogPostRoute` | dist/server/routes.js:203-212 | 201 with the created post. The body is stored unchecked. |
| `Routes.UpdateBlogPostRoute` | dist/server/routes.js:213-226 | 404 with the store unchanged unless the parsed id is stored. Otherwise 200 with the merged post, which replaces the old one. |
| `Routes.DeleteBlogPostRoute` | dist/server/routes.js:227-239 | 404 exactly when nothing was removed. Otherwise 200 with the success message, and the id is gone. |
| `Routes.GetProductById` | dist/server/routes.js:135-147 | 404 with "Product not found" unless the parsed id is stored. Otherwise 200 with the product. |
| `Routes.Login` | dist/server/routes.js:253-261 | 200 with token "admin-token" exactly for the password "admin123". Otherwise 401. |
| `Routes.Verify` | dist/server/routes.js:262-270 | 200 `{valid: true}` exactly when removing the first "Bearer " from the header leaves "admin-token". Otherwise 401. |
| `Routes.VerifyBearer` | dist/server/routes.js:262-270 | A "Bearer <t>" header is accepted exactly when t is the admin token. |
| `Routes.LoginTokenVerifies` | dist/server/routes.js:253-270 | The token a successful login returns passes verification as a bearer header. |
| `Routes.VerifyAcceptsBareToken` | dist/server/routes.js:262-270 | The bare token with no "Bearer " prefix is accepted too. |
| `Routes.UploadMetadata` | dist/server/routes.js:92-98 | The stored name is `blog_<timestamp>_<original name>`. The other fields are copied from the request, and the cloud URL is the host's URL. |
| `Routes.UploadBlogImage` | dist/server/routes.js:78-112 | Guards in order: multer's type filter, multer's 50 MiB limit, a missing file (400), missing host settings (500). The host is called only after all guards pass. A host failure gives 500 with its message. Success records metadata and answers 200 with the URL and the record id. |
| `Routes.FileFilter` | dist/server/routes.js:23-29 | multer passes a type only if it is "image/" followed by a subtype. |
| `Routes.FileFilterIsImagePrefix` | dist/server/routes.js:23-29 | Every type of the form image/<subtype> passes, whatever the subtype, and nothing else does. |
| `Routes.Configured` | dist/server/routes.js:84 | The host is configured exactly when the cloud name, the API key and the secret are all set and non-empty. |
| `Routes.ErrorText` | dist/server/routes.js:109 | The failure text is the `Error`'s message, or "Unknown error" for any other thrown value. |
| `JsText.TrimStartDropsOnlySpace` | client/src/pages/blog.tsx:244-266 | What the leading trim drops is white space. |
| `JsText.TrimEndDropsOnlySpace` | client/src/pages/blog.tsx:244-266 | What the trailing trim drops is white space. |
| `JsText.Trim` | client/src/pages/blog.tsx:244-266 | `trim` leaves no white space at either end and never lengthens. |
| `JsText.TrimIsBothTrims` | client/src/pages/blog.tsx:244-266 | `trim` equals the leading trim followed by the trailing trim. |
| `JsText.TrimIsInfix` | client/src/pages/blog.tsx:244-266 | The trim is the infix that starts right after the leading white space. |
| `JsText.TrailingDropIsSpace` | client/src/pages/blog.tsx:244-266 | Everything after the trimmed infix is white space. |
| `JsText.TrimDropsOnlySpace` | client/src/pages/blog.tsx:244-266 | Everything `trim` drops, before and after, is white space. |
| `JsText.TrimEmptyIff` | client/src/pages/blog.tsx:244-257 | `x.trim()` is empty exactly when every character of x is white space (the blank-field check). |
| `JsText.TrimOfTrimmed` | client/src/pages/blog.tsx:259-266 | A string with no surrounding white space is its own trim. |
| `JsText.TrimIdempotent` | client/src/pages/blog.tsx:259-266 | Trimming twice is trimming once. |
| `JsText.IndexOfFrom` | dist/server/routes.js:263 | The first occurrence of the pattern at or after a position, or none when it occurs nowhere there. |
| `JsText.ReplaceFirst` | dist/server/routes.js:263 | A string without the pattern is left unchanged. Otherwise the first occurrence, as `IndexOfFrom` finds it, is replaced by the replacement: the text before it and the text after it are kept. |
| `JsText.StartsWith` | dist/server/routes.js:25 | A string that starts with the prefix is the prefix followed by the rest. |
| `JsText.StartsWithPointwise` | dist/server/routes.js:25 | `startsWith` holds exactly when the prefix fits and matches the string character by character. |
| `JsText.AbsentFirstCharNeverOccurs` | dist/server/routes.js:263 | A pattern whose first character the string lacks occurs nowhere in it. |
| `JsText.ReplaceFirstOfPrefix` | dist/server/routes.js:263 | Replacing a prefix pattern with "" leaves exactly the rest. |
| `JsText.ParseInt` | dist/server/routes.js:188 | NaN exactly when no digit of the chosen radix follows the leading white space, the sign and any 0x prefix. A number read after a minus sign is never positive, and any other read number is never negative. |
| `JsText.DigitPrefix` | dist/server/routes.js:188 | The longest run of digits of the radix at the front of the string. |
| `JsText.Decimal` | dist/server/routes.js:94 | A non-empty string of decimal digits, with no leading zero for a positive number. |
| `JsText.DecimalValue` | dist/server/routes.js:94 | Reading the decimal rendering back digit by digit gives the number. |
| `JsText.DigitPrefixOfDigits` | dist/server/routes.js:188 | A run of digits followed by a non-digit is exactly what the digit scan takes. |
| `JsText.ParseIntOfDecimal` | dist/server/routes.js:188 | `parseInt` reads back any decimal rendering followed by non-digit text. The exception is "0" followed by x, which selects base 16. |
| `JsText.NoHexPrefix` | dist/server/routes.js:188 | A string that does not start with 0x or 0X is read in base 10. |
| `BlogForm.Normalise` | client/src/pages/blog.tsx:244-266 | Rejects a blank title, else a blank content, else a blank excerpt, each case exactly when it applies. Otherwise builds a payload with the three fields trimmed, category trimmed or "General", image URL trimmed or "", and `published` defaulting to true. |
| `BlogForm.Payload` | client/src/pages/blog.tsx:259-266 | Every payload of a form that passed the checks is normal: required fields non-blank, every text field trimmed. |
| `BlogForm.NormaliseIdempotent` | client/src/pages/blog.tsx:259-266 | A form holding a normal payload submits that very payload. |
| `BlogForm.Submit` | client/src/pages/blog.tsx:241-273 | An alert exactly when the checks fail. Otherwise an update carrying the edited post's id when one is being edited, and a create otherwise. |
| `BlogForm.EditForm` | client/src/pages/blog.tsx:275-287 | The form holds the post's fields, with a null image URL as "". |
| `BlogForm.EditThenSubmit` | client/src/pages/blog.tsx:241-287 | Opening a normal post and submitting at once sends its own fields back as an update of it. |
| `BlogForm.CheckSnapshotImage` | attached_assets/blog_1751369541499.tsx:235-248 | Checks the type first, then the size. Exactly 5 MiB passes. Each outcome holds exactly when its condition does. |
| `BlogForm.ApplyEdit` | client/src/pages/blog.tsx:356 | An input's `onChange` sets its own field of the form to the new value. Every other field, the image URL included, is kept. |
| `BlogForm.IsAllowedImageType` | client/src/pages/blog.tsx:195-196 | The client whitelist is exactly image/jpeg, image/jpg, image/png and image/webp. |
| `BlogForm.UrlClearsFile` | client/src/pages/blog.tsx:436 | Only non-empty typed text can drop the picked file. |
| `BlogForm.TypedUrlEffects` | client/src/pages/blog.tsx:427-439 | A data URL is previewed and keeps the picked file. A web URL is previewed and drops it. Any other non-empty text drops the file and shows no preview. |
| `BlogForm.RequiredLeavesOnlyBlankText` | client/src/pages/blog.tsx:357 | Once the browser's `required` check lets a submit through, each alert, and the "General" fallback for the category, comes only from a field that holds white space and nothing else. |
| `BlogForm.UrlPreview` | client/src/pages/blog.tsx:430-434 | The preview is the typed URL when it starts with "http" or "data:", and "" otherwise. |
| `BlogPage.BlogPageState.constructor` | client/src/pages/blog.tsx:22-33 | Mounts with the initial form (text fields empty, `published` on), no file, no preview, nothing edited and the dialog closed. |
| `BlogPage.BlogPageState.ResetForm` | client/src/pages/blog.tsx:150-166 | Restores the initial form and clears the file and the preview. |
| `BlogPage.BlogPageState.OpenForCreate` | client/src/pages/blog.tsx:327-334 | Nothing is being edited, the form is reset and the dialog is open. |
| `BlogPage.BlogPageState.CloseAndReset` | client/src/pages/blog.tsx:472-480 | The dialog closes, nothing is being edited and the form is reset. The success callbacks at lines 83-88 and 110-115 do the same. |
| `BlogPage.BlogPageState.HandleEdit` | client/src/pages/blog.tsx:275-287 | The post becomes the edited one. Its fields fill the form, the preview shows its image URL or "", and the dialog opens. |
| `BlogPage.BlogPageState.FieldChanged` | client/src/pages/blog.tsx:356 | An input changes only its own field of the form. |
| `BlogPage.BlogPageState.HandleImageUpload` | client/src/pages/blog.tsx:192-202 | An upload starts exactly for a file of a whitelisted type, which becomes the picked file. Otherwise nothing changes. |
| `BlogPage.BlogPageState.PreviewRead` | client/src/pages/blog.tsx:205-209 | The preview becomes the data URL that was read. |
| `BlogPage.BlogPageState.UploadSucceeded` | client/src/pages/blog.tsx:227-229 | Only the form's image URL changes, to the returned URL. |
| `BlogPage.BlogPageState.UploadFailed` | client/src/pages/blog.tsx:231-237 | The picked file and the preview are cleared. The form is kept. |
| `BlogPage.BlogPageState.ImageUrlChanged` | client/src/pages/blog.tsx:427-439 | The form holds the typed URL. The preview follows the web-or-data rule. The picked file is dropped exactly when the URL is non-empty and not a data URL. |
| `BlogPage.BlogPageState.HandleSubmit` | client/src/pages/blog.tsx:241-273 | The handler's early returns and branches produce exactly the action `Submit` specifies. |
| `BlogPage.BlogPageState.Dismiss` | client/src/pages/blog.tsx:327 | The dialog's own close (Escape, a click outside) closes only the dialog. The form, the file, the preview and the edited post are kept. |
| `BlogPage.BlogPageState.OpenWithoutReset` | client/src/pages/blog.tsx:716 | "Create Your First Post" opens the dialog without a reset. Everything else is kept. |
| `BlogPage.BlogPageState.RequestSubmit` | client/src/pages/blog.tsx:347 | The form's submit event is refused by the browser while a `required` input is empty. Otherwise it is exactly the action of `handleSubmit`. |
| `BlogPage.SubmitFreshForm` | client/src/pages/blog.tsx:244-247 | Right after "Create New Post", the browser refuses a submit because the inputs are empty. `handleSubmit` called on that form would stop at the title check. |
| `BlogPage.ReopenAfterDismissKeepsEdit` | client/src/pages/blog.tsx:716 | Edit a post, dismiss the dialog, then reopen it with "Create Your First Post": saving still sends an update of that post, not a create. |
| `BlogPage.EditThenSave` | client/src/pages/blog.tsx:241-287 | Editing a normal post and saving at once sends an update of that post with its own fields, whatever the page held before. |
| `BlogPage.FailedUploadKeepsUrl` | client/src/pages/blog.tsx:192-237 | After a pick whose upload fails, the form is as before the pick and the file and the preview are cleared. |
| `BlogPageSnapshot.SnapshotPageState.constructor` | attached_assets/blog_1751369541499.tsx:24-35 | Mounts with the initial form, no file, no preview, nothing edited, the dialog closed and no read in flight. |
| `BlogPageSnapshot.SnapshotPageState.ResetForm` | attached_assets/blog_1751369541499.tsx:185-196 | Restores the initial form and clears the file and the preview. |
| `BlogPageSnapshot.SnapshotPageState.OpenForCreate` | attached_assets/blog_1751369541499.tsx:357-364 | Nothing is being edited, the form is reset and the dialog is open. |
| `BlogPageSnapshot.SnapshotPageState.CloseAndReset` | attached_assets/blog_1751369541499.tsx:553-561 | The dialog closes, nothing is being edited and the form is reset, as the success callbacks also do. |
| `BlogPageSnapshot.SnapshotPageState.Dismiss` | attached_assets/blog_1751369541499.tsx:357 | The dialog's own close closes only the dialog. Everything else is kept. |
| `BlogPageSnapshot.SnapshotPageState.HandleEdit` | attached_assets/blog_1751369541499.tsx:299-311 | As in the current page: a null image URL becomes "" in the form and the preview. |
| `BlogPageSnapshot.SnapshotPageState.FieldChanged` | attached_assets/blog_1751369541499.tsx:394 | An input changes only its own field of the form. |
| `BlogPageSnapshot.SnapshotPageState.HandleImageUpload` | attached_assets/blog_1751369541499.tsx:231-261 | The outcome is exactly the type-then-size check. Only an accepted file is picked, and it starts a read that captures the current form. A refused one changes nothing. |
| `BlogPageSnapshot.SnapshotPageState.ImageRead` | attached_assets/blog_1751369541499.tsx:252-255 | The preview becomes the data URL. The form becomes the captured form with that image URL. |
| `BlogPageSnapshot.SnapshotPageState.ImageUrlChanged` | attached_assets/blog_1751369541499.tsx:489-492 | The form holds the typed text and the preview shows it unconditionally. |
| `BlogPageSnapshot.SnapshotPageState.HandleSubmit` | attached_assets/blog_1751369541499.tsx:263-297 | Exactly the action `Submit` specifies: same checks, order and payload as the current page. |
| `BlogPageSnapshot.SnapshotPageState.RequestSubmit` | attached_assets/blog_1751369541499.tsx:380 | A submit is refused by the browser while a `required` input is empty. Otherwise it is exactly the action of `handleSubmit`. |
| `BlogPageSnapshot.TitleTypedDuringReadIsLost` | attached_assets/blog_1751369541499.tsx:250-255 | A title typed while an accepted image is being read is overwritten when the read completes. |
| `BlogPageSnapshot.AcceptedImageReachesPayload` | attached_assets/blog_1751369541499.tsx:231-261 | An allowed image of exactly 5 MiB is accepted. Its data URL becomes the form's image URL and the preview, and a valid submit sends it. |
| `Pipeline.CreateBody` | client/src/pages/blog.tsx:69-75 | The create request body carries every payload field, `published` and `imageUrl` included. |
| `Pipeline.UpdateBody` | client/src/pages/blog.tsx:96-102 | The update request body, with the id stripped off, supplies every payload field. |
| `Pipeline.FreshStore` | server/storage.ts:150-162 | A freshly constructed store is valid. |
| `Pipeline.FetchStored` | dist/server/routes.js:186-202 | Fetching a stored post by the decimal form of its id answers 200 with that post. |
| `Pipeline.ClientImageTypesPassServerFilter` | client/src/pages/blog.tsx:195-200 | Every whitelisted client type passes the server's `image/` filter. |
| `Pipeline.ServerFilterWiderThanClient` | dist/server/routes.js:23-29 | The server filter lets through a type the client refuses (image/gif). |
| `Pipeline.SnapshotAcceptedImagePassesMulter` | attached_assets/blog_1751369541499.tsx:235-248 | An image the snapshot accepts is within multer's filter and 50 MiB limit. |
| `Pipeline.FormCreateStoresPayload` | server/storage.ts:265-281 | A post created from the form is stored exactly as submitted. The memory store and the table agree on it, because the client always sends `published`. |
| `Pipeline.EditSaveKeepsPost` | server/storage.ts:283-290 | Saving an unchanged post from the edit form changes only `updatedAt`, and turns a null image URL into "". |
| `Pipeline.ScenarioSubmit` | client/src/pages/blog.tsx:241-273 | Title "A", content "B", excerpt "C", a category of one space and no `published` get past the browser's `required` check. They submit as a published post in category "General". |
| `Pipeline.CreateScenario` | client/src/pages/blog.tsx:259-271 | That post is created with 201, can be fetched by id and is listed publicly. |
| `Pipeline.RawCreateScenario` | server/storage.ts:265-281 | A similar body with an empty category, sent straight to the API without `published` is stored as a draft with an empty category. It can be fetched by id but is not listed. |
| `Pipeline.UpdateOneFieldScenario` | server/storage.ts:283-290 | Create, fetch, update one field, fetch: only that field and `updatedAt` differ. |
| `Pipeline.UploadLeavesNoRecord` | server/storage.ts:297-313 | A successful upload answers 200 with a file id, yet the memory store lists no uploaded file. |

## Left out

- `PostgreSQLStorage` in server/storage.ts is not modelled. It is a wrapper over a database whose behaviour lives in the database engine.
- The generated copy dist/server/storage.js is not modelled separately. It repeats the TypeScript `MemStorage`.
- The `compressImage` and `uploadToCloudinary` helpers are not modelled. They re-encode the image and upload it over the network. Their combined outcome, a URL or a thrown value, is a parameter of `Routes.UploadBlogImage`.
- When multer turns a file away, the model only records that it did (`RejectedByFilter`, `RejectedTooLarge`). Express's default error handler, which would choose the response, is not part of the model.
- The quote routes and the Zod validation they use are not modelled. Their rules live in a library.
- GET /api/products and GET /api/products/category/:category are not modelled as routes. Their store calls (`GetProducts`, `GetProductsByCategory`) are.
- The test endpoint for the host settings is not modelled.
- Request bodies are typed: an insert or a patch whose fields are present or absent. Untyped JSON is not modelled. That includes extra keys (an `id` in an update body would be spread over the stored post), nulls in non-null fields, and values of the wrong type.
- `Routes.UpdateBlogPostRoute`: an unreadable id answers 404, as the code does. It does not answer 400, because this handler has no NaN check, unlike GET.
- `Routes.DeleteBlogPostRoute`: the same, 404 for an unreadable id.
- `JsText.ParseInt`: integers are unbounded. JavaScript number precision beyond 2^53 is not modelled.
- Any thrown store error, and so the 500 "Failed to ..." answers of the blog and product routes, is not modelled. The memory store never throws.
- Timestamps are `nat` parameters. The code does not make `updatedAt` strictly increase or the `Date.now()` file id unique, and the model claims neither.
- DOM work, toasts, alerts, `localStorage`, React Query cache invalidation, the `fetch` calls and `FileReader` are not modelled. A pending read or upload is modelled as state plus a later method call.
- The mount-time admin session check is not modelled.
- The admin login dialog's state is not modelled.
- The password field's value is not modelled.
- `BlogPage.BlogPageState.HandleImageUpload`: the FileReader preview and the upload's outcome are separate methods (`PreviewRead`, `UploadSucceeded`, `UploadFailed`). Their order relative to each other is not modelled.
- Overlapping requests and concurrent callbacks are not modelled. Each call is atomic.
- The presentational pages and sections are not modelled.

## Notes on the source

- **`published` defaults.** The table default for `published` is true (shared/schema.ts:56), and the client sends true when the switch was never touched (client/src/pages/blog.tsx:265). The memory store, however, uses false when `published` is left out (server/storage.ts:275). `Storage.PublishedDefaultsDisagree` and `Pipeline.RawCreateScenario` show the two disagreeing. Through the form they always agree, because the client always sends a value (`Pipeline.FormCreateStoresPayload`). The model keeps each layer's own default.
- **Uploaded-file records.** After an upload, the memory store does not keep the record whose id it returns, so the id cannot be looked up (`Pipeline.UploadLeavesNoRecord`). The model follows the code.
- **Blank category.** The server does not default a blank category to "General". Only the client does.
