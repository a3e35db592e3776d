/**
 * `MemStorage` of server/storage.ts: the in-memory back end of the storage
 * interface. Each entity lives in a table keyed by id, and each table but the
 * uploaded-file one has a counter that supplies the next id.
 *
 * A JavaScript `Map` iterates in insertion order. Ids are handed out in
 * increasing order and `set` on an existing key keeps that key's place, so
 * every listing below comes out in ascending id order.
 */
module Storage {
  import opened Wrappers
  import opened Schema

  // ---------------------------------------------------------------------------
  // Tables keyed by id

  function UserId(u: User): int { u.id }
  function QuoteId(q: Quote): int { q.id }
  function ProductId(p: Product): int { p.id }
  function PostId(p: BlogPost): int { p.id }

  /** Every key of `m` is a positive id below `next`, and each record carries its own key as id. */
  ghost predicate KeyedBelow<T>(m: map<int, T>, next: int, idOf: T -> int) {
    forall k :: k in m ==> 1 <= k < next && idOf(m[k]) == k
  }

  /** The keys of `m` in `[lo, hi)` whose record satisfies `keep`, in ascending order. */
  function SelectKeys<T>(m: map<int, T>, keep: T -> bool, lo: int, hi: int): (ks: seq<int>)
    decreases hi - lo
    ensures forall i :: 0 <= i < |ks| ==> ks[i] in m && lo <= ks[i] < hi && keep(m[ks[i]])
    ensures forall k :: k in m && lo <= k < hi && keep(m[k]) ==> k in ks
    ensures forall i, j :: 0 <= i < j < |ks| ==> ks[i] < ks[j]
  {
    if lo >= hi then []
    else (if lo in m && keep(m[lo]) then [lo] else []) + SelectKeys(m, keep, lo + 1, hi)
  }

  /**
   * `Array.from(m.values()).filter(keep)`: exactly the records of the table
   * that satisfy `keep`, each once, in ascending id order.
   */
  function ListWhere<T>(m: map<int, T>, keep: T -> bool, idOf: T -> int, next: int): (r: seq<T>)
    requires KeyedBelow(m, next, idOf)
    ensures forall i :: 0 <= i < |r| ==> idOf(r[i]) in m && m[idOf(r[i])] == r[i] && keep(r[i])
    ensures forall k :: k in m && keep(m[k]) ==> m[k] in r
    ensures forall i, j :: 0 <= i < j < |r| ==> idOf(r[i]) < idOf(r[j])
  {
    var ks := SelectKeys(m, keep, 1, next);
    var r := seq(|ks|, i requires 0 <= i < |ks| => m[ks[i]]);
    assert forall k :: k in m && keep(m[k]) ==> m[k] in r by {
      forall k | k in m && keep(m[k]) ensures m[k] in r {
        var i :| 0 <= i < |ks| && ks[i] == k;
        assert r[i] == m[k];
      }
    }
    r
  }

  // ---------------------------------------------------------------------------
  // Records as the memory back end builds them

  /**
   * The post `createBlogPost` builds: both timestamps are the creation time,
   * an omitted `imageUrl` is null, and an omitted `published` is FALSE (the
   * table's own default is true, see PublishedDefaultsDisagree).
   */
  function NewBlogPost(ins: InsertBlogPost, id: int, now: Timestamp): (p: BlogPost)
    ensures p.id == id && p.createdAt == now && p.updatedAt == now
    ensures p.imageUrl == ins.imageUrl
    ensures p.published <==> ins.published == Some(true)
    ensures BlogInsertOf(p) == ins.(published := Some(p.published))
  {
    BlogPost(id, ins.title, ins.content, ins.excerpt, ins.imageUrl, ins.category,
             ins.published.GetOr(false), now, now)
  }

  /**
   * The memory back end and the table definition build the same row except
   * for `published`: they agree exactly when the insert says whether to
   * publish, and a post that leaves it out is a draft in memory but published
   * in the table.
   */
  lemma PublishedDefaultsDisagree(ins: InsertBlogPost, id: int, now: Timestamp)
    ensures NewBlogPost(ins, id, now) == BlogRow(ins, id, now).(published := ins.published == Some(true))
    ensures NewBlogPost(ins, id, now) == BlogRow(ins, id, now) <==> ins.published.Some?
    ensures ins.published.None? ==> !NewBlogPost(ins, id, now).published && BlogRow(ins, id, now).published
  {
  }

  /** An update body that supplies nothing. */
  const EmptyPatch := BlogPostPatch(None, None, None, None, None, None)

  /**
   * `{ ...existing, ...patch, updatedAt: now }`: every field the patch supplies
   * overrides the stored one, every other field (the id and `createdAt`
   * included) keeps its stored value, and `updatedAt` becomes `now`.
   */
  function MergePatch(p: BlogPost, d: BlogPostPatch, now: Timestamp): (r: BlogPost)
    ensures r.id == p.id && r.createdAt == p.createdAt && r.updatedAt == now
    ensures r.title == d.title.GetOr(p.title) && r.content == d.content.GetOr(p.content)
    ensures r.excerpt == d.excerpt.GetOr(p.excerpt) && r.imageUrl == d.imageUrl.GetOr(p.imageUrl)
    ensures r.category == d.category.GetOr(p.category) && r.published == d.published.GetOr(p.published)
  {
    p.(title := d.title.GetOr(p.title), content := d.content.GetOr(p.content),
       excerpt := d.excerpt.GetOr(p.excerpt), imageUrl := d.imageUrl.GetOr(p.imageUrl),
       category := d.category.GetOr(p.category), published := d.published.GetOr(p.published),
       updatedAt := now)
  }

  /** Two update bodies spread one after the other: the later one wins field by field. */
  function Combine(a: BlogPostPatch, b: BlogPostPatch): BlogPostPatch {
    BlogPostPatch(
      if b.title.Some? then b.title else a.title,
      if b.content.Some? then b.content else a.content,
      if b.excerpt.Some? then b.excerpt else a.excerpt,
      if b.imageUrl.Some? then b.imageUrl else a.imageUrl,
      if b.category.Some? then b.category else a.category,
      if b.published.Some? then b.published else a.published)
  }

  /** An empty update changes nothing but `updatedAt`. */
  lemma MergeEmptyPatch(p: BlogPost, now: Timestamp)
    ensures MergePatch(p, EmptyPatch, now) == p.(updatedAt := now)
  {
  }

  /** Two updates in a row act as one update with the combined body, stamped with the later time. */
  lemma MergeComposes(p: BlogPost, a: BlogPostPatch, b: BlogPostPatch, t1: Timestamp, t2: Timestamp)
    ensures MergePatch(MergePatch(p, a, t1), b, t2) == MergePatch(p, Combine(a, b), t2)
  {
  }

  /** Sending the same update twice leaves what one sending left, up to the time stamp. */
  lemma MergeIdempotent(p: BlogPost, d: BlogPostPatch, t1: Timestamp, t2: Timestamp)
    ensures MergePatch(MergePatch(p, d, t1), d, t2) == MergePatch(p, d, t2)
  {
    MergeComposes(p, d, d, t1, t2);
    assert Combine(d, d) == d;
  }

  /**
   * The product `createProduct` builds: an `imageUrl` that is null, left out
   * or the empty string (JavaScript `||`) is stored as null.
   */
  function NewProduct(ins: InsertProduct, id: int): (p: Product)
    ensures p.id == id && p.name == ins.name && p.description == ins.description && p.category == ins.category
    ensures p.imageUrl.None? <==> ins.imageUrl.None? || ins.imageUrl.value == ""
    ensures p.imageUrl.Some? ==> p.imageUrl == ins.imageUrl
  {
    Product(id, ins.name, ins.description, ins.category,
            if ins.imageUrl.Some? && ins.imageUrl.value != "" then ins.imageUrl else None)
  }

  /**
   * The two create paths treat an empty image URL differently: a blog post
   * keeps `""` (JavaScript `??`), a product turns it into null (`||`).
   */
  lemma EmptyImageUrlKeptForPostsDroppedForProducts(post: InsertBlogPost, product: InsertProduct, id: int, now: Timestamp)
    requires post.imageUrl == Some("") && product.imageUrl == Some("")
    ensures NewBlogPost(post, id, now).imageUrl == Some("")
    ensures NewProduct(product, id).imageUrl == None
  {
  }

  function NewUser(ins: InsertUser, id: int): (u: User)
    ensures u.id == id && UserInsertOf(u) == ins
  {
    User(id, ins.username, ins.password)
  }

  /**
   * `createUser` in memory does not enforce the table's unique usernames:
   * adding a user under a name already taken breaks the constraint.
   */
  lemma CreateUserIgnoresUniqueness(users: map<int, User>, taken: int, ins: InsertUser, id: int)
    requires taken in users && users[taken].username == ins.username && id !in users
    ensures !UsernamesUnique(users[id := NewUser(ins, id)])
  {
    var after := users[id := NewUser(ins, id)];
    assert taken in after && id in after && taken != id;
    assert after[taken].username == after[id].username;
  }

  /**
   * The uploaded-file record of the memory back end: its id is the clock
   * reading `Date.now()`, the metadata fields are copied, and a missing
   * `cloudUrl` is null.
   */
  function NewUploadedFile(ins: InsertUploadedFile, clockMillis: nat, now: Timestamp): (f: UploadedFile)
    ensures f.id == clockMillis && f.uploadedAt == now
    ensures f.originalName == ins.originalName && f.fileName == ins.fileName
    ensures f.fileSize == ins.fileSize && f.mimeType == ins.mimeType && f.cloudUrl == ins.cloudUrl
  {
    UploadedFile(clockMillis, ins.originalName, ins.fileName, ins.fileSize, ins.mimeType, ins.cloudUrl, now)
  }

  // ---------------------------------------------------------------------------
  // Seed data

  const SampleProducts: seq<InsertProduct> := [
    InsertProduct(
      "Toyota Aqua Hybrid Battery",
      "Genuine OEM hybrid battery for Toyota Aqua 2011-2020. Low mileage, tested and certified with 1 year warranty.",
      "hybrid-batteries", Some("/attached_assets/image6.jpg")),
    InsertProduct(
      "Honda Vezel Gearbox",
      "Complete gearbox assembly for Honda Vezel hybrid models. Professional installation and fitting service available.",
      "transmissions", Some("/attached_assets/image7.png")),
    InsertProduct(
      "Toyota Prius Inverter Water Pump",
      "High-efficiency inverter water pump for Toyota Prius hybrid cooling system. Essential for optimal performance.",
      "cooling-systems", Some("/attached_assets/image3.jpg"))
  ]

  const SamplePosts: seq<InsertBlogPost> := [
    InsertBlogPost(
      "Understanding Hybrid Battery Technology",
      "Hybrid batteries are the heart of any hybrid vehicle...",
      "Learn about the technology behind hybrid batteries and how proper maintenance can extend their lifespan.",
      Some("/attached_assets/battery2.png"), "Hybrid Technology", Some(true))
  ]

  /** The product table after the first `n` sample products were created, ids 1 to `n`. */
  function SeededProducts(n: nat): (m: map<int, Product>)
    requires n <= |SampleProducts|
    ensures forall k :: k in m <==> 1 <= k <= n
    ensures forall k :: k in m ==> m[k] == NewProduct(SampleProducts[k - 1], k)
  {
    if n == 0 then map[] else SeededProducts(n - 1)[n := NewProduct(SampleProducts[n - 1], n)]
  }

  /** The post table after the first `n` sample posts were created at time `now`, ids 1 to `n`. */
  function SeededPosts(n: nat, now: Timestamp): (m: map<int, BlogPost>)
    requires n <= |SamplePosts|
    ensures forall k :: k in m <==> 1 <= k <= n
    ensures forall k :: k in m ==> m[k] == NewBlogPost(SamplePosts[k - 1], k, now)
  {
    if n == 0 then map[] else SeededPosts(n - 1, now)[n := NewBlogPost(SamplePosts[n - 1], n, now)]
  }

  // ---------------------------------------------------------------------------
  // The store

  class MemStorage {
    var users: map<int, User>
    var quotes: map<int, Quote>
    var products: map<int, Product>
    var blogPosts: map<int, BlogPost>
    var currentUserId: int
    var currentQuoteId: int
    var currentProductId: int
    var currentBlogPostId: int

    /** Each table holds only ids its counter has already handed out, each under its own id. */
    ghost predicate Valid()
      reads this
    {
      && KeyedBelow(users, currentUserId, UserId)
      && KeyedBelow(quotes, currentQuoteId, QuoteId)
      && KeyedBelow(products, currentProductId, ProductId)
      && KeyedBelow(blogPosts, currentBlogPostId, PostId)
      && 1 <= currentUserId && 1 <= currentQuoteId && 1 <= currentProductId && 1 <= currentBlogPostId
    }

    /** Empty tables, every counter at 1, then the sample products and the sample post created in order. */
    constructor (now: Timestamp)
      ensures Valid()
      ensures users == map[] && quotes == map[] && currentUserId == 1 && currentQuoteId == 1
      ensures products == SeededProducts(|SampleProducts|)
      ensures currentProductId == |SampleProducts| + 1
      ensures blogPosts == SeededPosts(|SamplePosts|, now)
      ensures currentBlogPostId == |SamplePosts| + 1
    {
      users, quotes, products, blogPosts := map[], map[], map[], map[];
      currentUserId, currentQuoteId, currentProductId, currentBlogPostId := 1, 1, 1, 1;
      new;
      InitializeProducts();
      InitializeBlogPosts(now);
    }

    method InitializeProducts()
      requires Valid() && products == map[] && currentProductId == 1
      modifies this`products, this`currentProductId
      ensures Valid()
      ensures products == SeededProducts(|SampleProducts|)
      ensures currentProductId == |SampleProducts| + 1
    {
      for i := 0 to |SampleProducts|
        invariant Valid()
        invariant currentProductId == i + 1
        invariant products == SeededProducts(i)
      {
        var _ := CreateProduct(SampleProducts[i]);
      }
    }

    method InitializeBlogPosts(now: Timestamp)
      requires Valid() && blogPosts == map[] && currentBlogPostId == 1
      modifies this`blogPosts, this`currentBlogPostId
      ensures Valid()
      ensures blogPosts == SeededPosts(|SamplePosts|, now)
      ensures currentBlogPostId == |SamplePosts| + 1
    {
      for i := 0 to |SamplePosts|
        invariant Valid()
        invariant currentBlogPostId == i + 1
        invariant blogPosts == SeededPosts(i, now)
      {
        var _ := CreateBlogPost(SamplePosts[i], now);
      }
    }

    // Users

    function GetUser(id: int): (r: Option<User>)
      reads this
      requires Valid()
      ensures r.Some? <==> id in users
      ensures r.Some? ==> r.value == users[id] && r.value.id == id
    {
      if id in users then Some(users[id]) else None
    }

    /** `find` over the users in insertion order: the user with the smallest id holding that name. */
    function GetUserByUsername(name: string): (r: Option<User>)
      reads this
      requires Valid()
      ensures r.Some? ==> r.value.username == name && r.value.id in users && users[r.value.id] == r.value
      ensures r.Some? ==> forall k :: k in users && k < r.value.id ==> users[k].username != name
      ensures r.None? ==> forall k :: k in users ==> users[k].username != name
    {
      var ks := SelectKeys(users, (u: User) => u.username == name, 1, currentUserId);
      if ks == [] then None
      else
        assert forall k :: k in users && users[k].username == name ==> ks[0] <= k by {
          forall k | k in users && users[k].username == name ensures ks[0] <= k {
            var j :| 0 <= j < |ks| && ks[j] == k;
          }
        }
        Some(users[ks[0]])
    }

    method CreateUser(ins: InsertUser) returns (u: User)
      requires Valid()
      modifies this`users, this`currentUserId
      ensures Valid()
      ensures u == NewUser(ins, old(currentUserId))
      ensures u.id !in old(users) && users == old(users)[u.id := u]
      ensures currentUserId == old(currentUserId) + 1
    {
      var id := currentUserId;
      currentUserId := currentUserId + 1;
      u := NewUser(ins, id);
      users := users[id := u];
    }

    // Quotes

    method CreateQuote(ins: InsertQuote, now: Timestamp) returns (q: Quote)
      requires Valid()
      modifies this`quotes, this`currentQuoteId
      ensures Valid()
      ensures q == QuoteRow(ins, old(currentQuoteId), now)
      ensures q.id !in old(quotes) && quotes == old(quotes)[q.id := q]
      ensures currentQuoteId == old(currentQuoteId) + 1
    {
      var id := currentQuoteId;
      currentQuoteId := currentQuoteId + 1;
      q := QuoteRow(ins, id, now);
      quotes := quotes[id := q];
    }

    function GetQuotes(): (r: seq<Quote>)
      reads this
      requires Valid()
      ensures forall i :: 0 <= i < |r| ==> r[i].id in quotes && quotes[r[i].id] == r[i]
      ensures forall k :: k in quotes ==> quotes[k] in r
      ensures forall i, j :: 0 <= i < j < |r| ==> r[i].id < r[j].id
    {
      ListWhere(quotes, (q: Quote) => true, QuoteId, currentQuoteId)
    }

    function GetQuote(id: int): (r: Option<Quote>)
      reads this
      requires Valid()
      ensures r.Some? <==> id in quotes
      ensures r.Some? ==> r.value == quotes[id] && r.value.id == id
    {
      if id in quotes then Some(quotes[id]) else None
    }

    // Products

    function GetProducts(): (r: seq<Product>)
      reads this
      requires Valid()
      ensures forall i :: 0 <= i < |r| ==> r[i].id in products && products[r[i].id] == r[i]
      ensures forall k :: k in products ==> products[k] in r
      ensures forall i, j :: 0 <= i < j < |r| ==> r[i].id < r[j].id
    {
      ListWhere(products, (p: Product) => true, ProductId, currentProductId)
    }

    function GetProduct(id: int): (r: Option<Product>)
      reads this
      requires Valid()
      ensures r.Some? <==> id in products
      ensures r.Some? ==> r.value == products[id] && r.value.id == id
    {
      if id in products then Some(products[id]) else None
    }

    /** Exactly the stored products whose category equals `category`, in id order. */
    function GetProductsByCategory(category: string): (r: seq<Product>)
      reads this
      requires Valid()
      ensures forall i :: 0 <= i < |r| ==> r[i].category == category && r[i].id in products && products[r[i].id] == r[i]
      ensures forall k :: k in products && products[k].category == category ==> products[k] in r
      ensures forall i, j :: 0 <= i < j < |r| ==> r[i].id < r[j].id
    {
      ListWhere(products, (p: Product) => p.category == category, ProductId, currentProductId)
    }

    method CreateProduct(ins: InsertProduct) returns (p: Product)
      requires Valid()
      modifies this`products, this`currentProductId
      ensures Valid()
      ensures p == NewProduct(ins, old(currentProductId))
      ensures p.id !in old(products) && products == old(products)[p.id := p]
      ensures currentProductId == old(currentProductId) + 1
    {
      var id := currentProductId;
      currentProductId := currentProductId + 1;
      p := NewProduct(ins, id);
      products := products[id := p];
    }

    // Blog posts

    /** The public listing: exactly the stored posts that are published, drafts never, in id order. */
    function GetBlogPosts(): (r: seq<BlogPost>)
      reads this
      requires Valid()
      ensures forall i :: 0 <= i < |r| ==> r[i].published && r[i].id in blogPosts && blogPosts[r[i].id] == r[i]
      ensures forall k :: k in blogPosts && blogPosts[k].published ==> blogPosts[k] in r
      ensures forall i, j :: 0 <= i < j < |r| ==> r[i].id < r[j].id
    {
      ListWhere(blogPosts, (p: BlogPost) => p.published, PostId, currentBlogPostId)
    }

    /** Any stored post, draft or published; absent exactly when no post has that id. */
    function GetBlogPost(id: int): (r: Option<BlogPost>)
      reads this
      requires Valid()
      ensures r.Some? <==> id in blogPosts
      ensures r.Some? ==> r.value == blogPosts[id] && r.value.id == id
    {
      if id in blogPosts then Some(blogPosts[id]) else None
    }

    /**
     * The new post takes the counter as its id, which no stored post has and
     * which exceeds every stored id; no other post changes.
     */
    method CreateBlogPost(ins: InsertBlogPost, now: Timestamp) returns (post: BlogPost)
      requires Valid()
      modifies this`blogPosts, this`currentBlogPostId
      ensures Valid()
      ensures post == NewBlogPost(ins, old(currentBlogPostId), now)
      ensures post.id !in old(blogPosts) && forall k :: k in old(blogPosts) ==> k < post.id
      ensures blogPosts == old(blogPosts)[post.id := post]
      ensures currentBlogPostId == old(currentBlogPostId) + 1
    {
      var id := currentBlogPostId;
      currentBlogPostId := currentBlogPostId + 1;
      post := NewBlogPost(ins, id, now);
      blogPosts := blogPosts[id := post];
    }

    /**
     * An absent id gives nothing and creates nothing; a present one is merged
     * with the update body and stored back under the same id, every other post
     * untouched.
     */
    method UpdateBlogPost(id: int, d: BlogPostPatch, now: Timestamp) returns (r: Option<BlogPost>)
      requires Valid()
      modifies this`blogPosts
      ensures Valid()
      ensures id !in old(blogPosts) ==> r == None && blogPosts == old(blogPosts)
      ensures id in old(blogPosts) ==>
        r == Some(MergePatch(old(blogPosts)[id], d, now)) && blogPosts == old(blogPosts)[id := r.value]
    {
      if id !in blogPosts {
        return None;
      }
      var updated := MergePatch(blogPosts[id], d, now);
      blogPosts := blogPosts[id := updated];
      r := Some(updated);
    }

    /** Hard delete: true exactly when the id was stored; afterwards it is not. */
    method DeleteBlogPost(id: int) returns (existed: bool)
      requires Valid()
      modifies this`blogPosts
      ensures Valid()
      ensures existed == (id in old(blogPosts))
      ensures blogPosts == old(blogPosts) - {id}
    {
      existed := id in blogPosts;
      blogPosts := blogPosts - {id};
    }

    // Uploaded files

    /** Builds the record and returns it; the memory back end stores nothing. */
    method CreateUploadedFile(ins: InsertUploadedFile, clockMillis: nat, now: Timestamp) returns (f: UploadedFile)
      ensures f == NewUploadedFile(ins, clockMillis, now)
    {
      f := NewUploadedFile(ins, clockMillis, now);
    }

    /** The memory back end lists no uploaded files, whatever was created. */
    function GetUploadedFiles(): (r: seq<UploadedFile>)
      ensures |r| == 0
    {
      []
    }
  }

  /** Deleting one id twice: the first call reports whether it was stored, the second always false. */
  method DeleteTwice(store: MemStorage, id: int) returns (first: bool, second: bool)
    requires store.Valid()
    modifies store`blogPosts
    ensures store.Valid()
    ensures first == (id in old(store.blogPosts)) && !second
    ensures store.blogPosts == old(store.blogPosts) - {id}
  {
    first := store.DeleteBlogPost(id);
    second := store.DeleteBlogPost(id);
  }
}
