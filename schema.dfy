/**
 * The five tables of shared/schema.ts as records, and their insert shapes.
 * A `notNull()` column is a plain field; a nullable column is an `Option`.
 * Timestamps are abstract clock readings.
 */
module Schema {
  import opened Wrappers

  type Timestamp = nat

  /** Table `users`: `username` is declared unique. */
  datatype User = User(id: int, username: string, password: string)

  /** The user insert shape picks exactly `username` and `password`. */
  datatype InsertUser = InsertUser(username: string, password: string)

  /** Table `quotes`: seven required text fields and a creation time. */
  datatype Quote = Quote(
    id: int,
    firstName: string, lastName: string, email: string, phone: string,
    vehicleMake: string, vehicleModel: string, serviceRequired: string,
    createdAt: Timestamp)

  /** The quote insert shape omits `id` and `createdAt`. */
  datatype InsertQuote = InsertQuote(
    firstName: string, lastName: string, email: string, phone: string,
    vehicleMake: string, vehicleModel: string, serviceRequired: string)

  /** Table `products`: `imageUrl` is the one nullable column. */
  datatype Product = Product(id: int, name: string, description: string, category: string, imageUrl: Option<string>)

  /** The product insert shape omits only `id`. */
  datatype InsertProduct = InsertProduct(name: string, description: string, category: string, imageUrl: Option<string>)

  /** Table `blog_posts`: `imageUrl` nullable, `published` not null with default true. */
  datatype BlogPost = BlogPost(
    id: int,
    title: string, content: string, excerpt: string,
    imageUrl: Option<string>, category: string, published: bool,
    createdAt: Timestamp, updatedAt: Timestamp)

  /**
   * The blog insert shape omits `id`, `createdAt` and `updatedAt`; `imageUrl`
   * may be null or left out (both `None`), `published` may be left out.
   */
  datatype InsertBlogPost = InsertBlogPost(
    title: string, content: string, excerpt: string,
    imageUrl: Option<string>, category: string, published: Option<bool>)

  /**
   * `Partial<InsertBlogPost>`, the body of an update: `None` leaves a field
   * out; `imageUrl` may be supplied as null, hence `Some(None)`.
   */
  datatype BlogPostPatch = BlogPostPatch(
    title: Option<string>, content: Option<string>, excerpt: Option<string>,
    imageUrl: Option<Option<string>>, category: Option<string>, published: Option<bool>)

  /** Table `uploaded_files`: `cloudUrl` is the one nullable column. */
  datatype UploadedFile = UploadedFile(
    id: int, originalName: string, fileName: string, fileSize: int, mimeType: string,
    cloudUrl: Option<string>, uploadedAt: Timestamp)

  /** The insert shape of an uploaded-file record as the upload route fills it. */
  datatype InsertUploadedFile = InsertUploadedFile(
    originalName: string, fileName: string, fileSize: int, mimeType: string, cloudUrl: Option<string>)

  /** The column default of `blog_posts.published`. */
  const PublishedColumnDefault := true

  /** The insert fields of a blog post: everything but the identity and the two timestamps. */
  function BlogInsertOf(p: BlogPost): InsertBlogPost {
    InsertBlogPost(p.title, p.content, p.excerpt, p.imageUrl, p.category, Some(p.published))
  }

  /**
   * The row the `blog_posts` table itself makes of an insert: `id` is given,
   * both timestamps are the insertion time, `imageUrl` stays null when left
   * out, and a missing `published` takes the column default.
   */
  function BlogRow(ins: InsertBlogPost, id: int, now: Timestamp): (r: BlogPost)
    ensures r.id == id && r.createdAt == now && r.updatedAt == now
    ensures r.published == (ins.published != Some(false))
    ensures BlogInsertOf(r) == ins.(published := Some(r.published))
  {
    BlogPost(id, ins.title, ins.content, ins.excerpt, ins.imageUrl, ins.category,
             ins.published.GetOr(PublishedColumnDefault), now, now)
  }

  function QuoteInsertOf(q: Quote): InsertQuote {
    InsertQuote(q.firstName, q.lastName, q.email, q.phone, q.vehicleMake, q.vehicleModel, q.serviceRequired)
  }

  /** A quote row: the insert fields unchanged, plus an identity and the creation time. */
  function QuoteRow(ins: InsertQuote, id: int, now: Timestamp): (r: Quote)
    ensures r.id == id && r.createdAt == now && QuoteInsertOf(r) == ins
  {
    Quote(id, ins.firstName, ins.lastName, ins.email, ins.phone, ins.vehicleMake, ins.vehicleModel,
          ins.serviceRequired, now)
  }

  function ProductInsertOf(p: Product): InsertProduct {
    InsertProduct(p.name, p.description, p.category, p.imageUrl)
  }

  function UserInsertOf(u: User): InsertUser {
    InsertUser(u.username, u.password)
  }

  /** The `unique()` constraint on `users.username`, over a table keyed by id. */
  ghost predicate UsernamesUnique(users: map<int, User>) {
    forall a, b :: a in users && b in users && a != b ==> users[a].username != users[b].username
  }
}
