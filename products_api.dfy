/** The product routes of the API (Shop.API/src/api/products-api.ts). Each handler reads and
    changes the shared tables step by step, as its SQL statements do; a reply is the status
    and body the handler sends. */
module ProductsApi {
  import opened Wrappers
  import opened Types
  import opened Seqs
  import opened Http
  import opened Mapping
  import opened Queries
  import opened Helpers
  import opened Storage

  // ---- replies ----

  const ServerError := "Something went wrong"
  const NoProductsFound := "Products are not found"
  const ImagesEmpty := "Images array is empty"
  const ImagesMalformed := "Images array is empty or malformed"
  const ProductIdNotUuid := "Product id is not UUID"
  const ThumbnailIdNotUuid := "New thumbnail id is empty or not UUID"
  const SimilarIdNotUuid := "Similar product id is not UUID"
  const IncorrectProductId := "Incorrect product id"
  const IncorrectThumbnailId := "Incorrect new thumbnail id"
  const ThumbnailSet := "New product thumbnail has been set!"
  const PairsMalformed := "Pairs array is empty or malformed"
  const PairsAdded := "Pairs have been added successfully"

  function NotFound(id: string): string { "Product with id " + id + " is not found" }

  // ---- payloads ----

  /** `ProductCreatePayload`: every field may be missing from the body. */
  datatype ProductPayload = ProductPayload(title: Option<string>, description: Option<string>, price: Option<int>, images: Option<seq<ImagePayload>>)

  /** A PATCH body: for each field, whether the key is there (outer `Some`) and, for title and
      description, whether its value is `null` (inner `None`). */
  datatype ProductPatch = ProductPatch(title: Option<Option<string>>, description: Option<Option<string>>, price: Option<PriceCell>)

  /** One element of the `similarProducts` answer: the columns of the joined products row. */
  datatype SimilarProduct = SimilarProduct(id: string, title: Option<string>, description: Option<string>, price: PriceCell)

  // ---- reading one product ----

  /** `SELECT * FROM products WHERE product_id = ?` followed by `rows?.[0]`: the first row
      with the id, if any. */
  function SelectProduct(products: seq<ProductRow>, id: string): (r: Option<ProductRow>)
    ensures r.None? <==> forall i :: 0 <= i < |products| ==> products[i].productId != id
    ensures r.Some? ==> r.value.productId == id
                        && exists i :: 0 <= i < |products| && products[i] == r.value
                                       && forall j :: 0 <= j < i ==> products[j].productId != id
  {
    First(products, ProductIdIs(id))
  }

  /** A row appended behind the table is found by its id exactly when no earlier row has it. */
  lemma SelectProductAppend(products: seq<ProductRow>, row: ProductRow)
    ensures SelectProduct(products + [row], row.productId)
         == if SelectProduct(products, row.productId).Some? then SelectProduct(products, row.productId) else Some(row)
  {
    FirstAppend(products, row, ProductIdIs(row.productId));
  }

  /** `images.find(image => image.main)`: the first image flagged main. */
  function FirstMain(imgs: seq<Image>): (r: Option<Image>)
    ensures r.None? <==> forall i :: 0 <= i < |imgs| ==> !imgs[i].main
    ensures r.Some? ==> exists i :: 0 <= i < |imgs| && imgs[i] == r.value && imgs[i].main
                                    && forall j :: 0 <= j < i ==> !imgs[j].main
  {
    First(imgs, (img: Image) => img.main)
  }

  /** The single-product thumbnail: the first main image, else the first image. */
  function DetailThumbnail(imgs: seq<Image>): Option<Image>
  {
    match FirstMain(imgs)
    case Some(t) => Some(t)
    case None => if imgs != [] then Some(imgs[0]) else None
  }

  /** The product GET `/:id` answers for its row. */
  function DetailView(row: ProductRow, commentRows: seq<CommentRow>, imageRows: seq<ImageRow>): Product
  {
    var imgs := ImagesOf(imageRows, row.productId);
    MapProduct(row).(comments := NonEmpty(CommentsOf(commentRows, row.productId)),
                     images := NonEmpty(imgs),
                     thumbnail := DetailThumbnail(imgs))
  }

  /** The single-product view: comments and images are attached only when there are some,
      in row order; the thumbnail is the first main image of the product, else its first
      image, and it is one of the attached images. */
  lemma DetailViewMeaning(row: ProductRow, commentRows: seq<CommentRow>, imageRows: seq<ImageRow>)
    ensures var p := DetailView(row, commentRows, imageRows); var imgs := ImagesOf(imageRows, row.productId);
      && p.id == row.productId
      && (p.comments.None? <==> forall i :: 0 <= i < |commentRows| ==> commentRows[i].productId != row.productId)
      && (p.images.None? <==> forall i :: 0 <= i < |imageRows| ==> imageRows[i].productId != row.productId)
      && (p.thumbnail.None? <==> p.images.None?)
      && (p.thumbnail.Some? ==> p.thumbnail.value in imgs && p.thumbnail.value.productId == row.productId)
      && ((exists i :: 0 <= i < |imgs| && imgs[i].main) ==>
            exists i :: 0 <= i < |imgs| && imgs[i] == p.thumbnail.value && imgs[i].main
                        && forall j :: 0 <= j < i ==> !imgs[j].main)
      && ((forall i :: 0 <= i < |imgs| ==> !imgs[i].main) && imgs != [] ==> p.thumbnail == Some(imgs[0]))
  {
    CommentsOfMembers(commentRows, row.productId);
    ImagesOfBelong(imageRows, row.productId);
  }

  /** With at most one main image, the list view (last main wins) and the single-product
      view (first main wins) agree on the thumbnail. */
  lemma ThumbnailViewsAgree(imgs: seq<Image>)
    requires forall i, j :: 0 <= i < |imgs| && 0 <= j < |imgs| && imgs[i].main && imgs[j].main ==> i == j
    ensures DetailThumbnail(imgs) == ListThumbnail(imgs)
  {
    LastMainIsLast(imgs);
  }

  /** With two main images the two views pick different thumbnails. */
  lemma ThumbnailViewsDiffer()
    ensures var a := Image("a", "p", true, "a.png"); var b := Image("b", "p", true, "b.png");
      DetailThumbnail([a, b]) == Some(a) && ListThumbnail([a, b]) == Some(b)
  {
    var a := Image("a", "p", true, "a.png");
    var b := Image("b", "p", true, "b.png");
    assert [a, b][..1] == [a];
  }

  // ---- the list views ----

  /** A row of a list answer: mapped, then given its comments, then its images. */
  function Listed(row: ProductRow, commentRows: seq<CommentRow>, imageRows: seq<ImageRow>): Product
  {
    WithImages(WithComments(MapProduct(row), commentRows), imageRows)
  }

  /** `mapProductsEntity`, `enhanceProductsComments` and `enhanceProductsImages` in a row,
      as the search and list handlers run them. */
  method ListView(rows: seq<ProductRow>, commentRows: seq<CommentRow>, imageRows: seq<ImageRow>) returns (ps: seq<Product>)
    ensures |ps| == |rows|
    ensures forall k :: 0 <= k < |rows| ==> ps[k] == Listed(rows[k], commentRows, imageRows)
  {
    var products := ToArray(MapProducts(rows));
    var withComments := EnhanceProductsComments(products, commentRows);
    ghost var commented := withComments[..];
    var withImages := EnhanceProductsImages(withComments, imageRows);
    ps := withImages[..];
    forall k | 0 <= k < |rows|
      ensures ps[k] == Listed(rows[k], commentRows, imageRows)
    {
      assert commented[k] == WithComments(MapProduct(rows[k]), commentRows);
    }
  }

  /** A fresh array holding `s`, as a JavaScript array of the mapped rows. */
  method ToArray<T>(s: seq<T>) returns (a: array<T>)
    ensures fresh(a) && a[..] == s
  {
    a := new T[|s|](k requires 0 <= k < |s| => s[k]);
  }

  /** The rows the search statement selects: those satisfying one of its clauses. */
  function SearchRows(products: seq<ProductRow>, cs: seq<Clause>): (r: seq<ProductRow>)
    ensures forall row :: row in r <==> row in products && QueryMatches(cs, row)
    ensures IsSubsequence(r, products)
  {
    var matching := (row: ProductRow) => QueryMatches(cs, row);
    FilterMembers(products, matching);
    FilterIsSubsequence(products, matching);
    Filter(products, matching)
  }

  /** Only an empty filter leaves the statement ending in `WHERE `. */
  lemma {:induction false} JoinedWithOrEmpty(cs: seq<Clause>)
    ensures JoinedWithOr(cs) == [] <==> cs == []
  {
    if |cs| > 1 {
      assert |ClauseText(cs[|cs| - 1])| > 0;
    } else if |cs| == 1 {
      assert |ClauseText(cs[0])| > 0;
    }
  }

  // ---- request checks ----

  /** A body field that is present and shaped like a UUID. */
  predicate GivenUuid(s: Option<string>) { s.Some? && IsUuid(s.value) }

  /** `!images?.length` (line 186): add-images refuses a missing or empty image list. */
  predicate ImagesRejected(images: Option<seq<ImagePayload>>)
  {
    images.None? || images == Some([])
  }

  /** `n` copies of a validation message. */
  function Repeat(message: string, n: nat): (r: seq<string>)
    ensures |r| == n && forall i :: 0 <= i < n ==> r[i] == message
  {
    if n == 0 then [] else Repeat(message, n - 1) + [message]
  }

  /** The two wildcard checks of add-similar: one message per pair with a bad `product_id`,
      then one per pair with a bad `similar_product_id`; a missing list matches nothing. A
      missing id is the empty string, which fails like any other non-UUID. */
  function PairErrors(pairs: Option<seq<SimilarPair>>): seq<string>
  {
    if pairs.None? then []
    else (Repeat(ProductIdNotUuid, Count(pairs.value, (p: SimilarPair) => !IsUuid(p.productId)))
          + Repeat(SimilarIdNotUuid, Count(pairs.value, (p: SimilarPair) => !IsUuid(p.similarProductId))))
  }

  /** add-similar passes its checks exactly when every pair holds two UUIDs. */
  lemma PairErrorsEmpty(pairs: seq<SimilarPair>)
    ensures PairErrors(Some(pairs)) == []
        <==> forall i :: 0 <= i < |pairs| ==> IsUuid(pairs[i].productId) && IsUuid(pairs[i].similarProductId)
  {
    CountZero(pairs, (p: SimilarPair) => !IsUuid(p.productId));
    CountZero(pairs, (p: SimilarPair) => !IsUuid(p.similarProductId));
  }

  /** The checks of update-thumbnail, in declaration order. */
  function ThumbnailErrors(id: string, newThumbnailId: Option<string>): seq<string>
  {
    (if IsUuid(id) then [] else [ProductIdNotUuid]) + (if GivenUuid(newThumbnailId) then [] else [ThumbnailIdNotUuid])
  }

  /** The checks of remove-similar, in declaration order. */
  function RemoveSimilarErrors(productId: Option<string>, similarProductId: Option<string>): seq<string>
  {
    (if GivenUuid(productId) then [] else [ProductIdNotUuid]) + (if GivenUuid(similarProductId) then [] else [SimilarIdNotUuid])
  }

  // ---- creating ----

  /** `s || null`. */
  function OrNull(s: Option<string>): (r: Option<string>)
    ensures r.None? <==> !Truthy(s)
    ensures r.Some? ==> r == s
  {
    if Truthy(s) then s else None
  }

  /** `price || null`: a missing price and a price of 0 are both stored as NULL. */
  function PriceOrNull(price: Option<int>): (r: PriceCell)
    ensures r.NullPrice? <==> price.None? || price == Some(0)
    ensures r.Amount? ==> price == Some(r.value)
  {
    if TruthyNumber(price) then Amount(price.value) else NullPrice
  }

  /** The row the read-back after an insert finds: an older row with the same id shadows
      the new one. */
  function ReadBack(products: seq<ProductRow>, row: ProductRow): (r: ProductRow)
    ensures SelectProduct(products + [row], row.productId) == Some(r)
    ensures SelectProduct(products, row.productId).None? ==> r == row
  {
    SelectProductAppend(products, row);
    if SelectProduct(products, row.productId).Some? then SelectProduct(products, row.productId).value else row
  }

  /** A boolean as the number column `main` stores it. */
  function MainFlag(main: bool): int { if main then 1 else 0 }

  /** The tuples `images.map(image => [uuidv4(), image.url, productId, image.main])` when
      the generator's next call is its `from`-th. */
  function ImageValues(uuid: nat -> string, from: nat, images: seq<ImagePayload>, productId: string): (r: seq<ImageTuple>)
    ensures |r| == |images|
    ensures forall k :: 0 <= k < |images| ==> r[k] == ImageTuple(uuid(from + k), images[k].url, productId, MainFlag(images[k].main))
  {
    seq(|images|, k requires 0 <= k < |images| => ImageTuple(uuid(from + k), images[k].url, productId, MainFlag(images[k].main)))
  }

  /** The products router: every route a method over the shared tables. */
  class ProductsRouter {
    const db: Database
    const ids: IdSource

    constructor (db: Database, ids: IdSource)
      ensures this.db == db && this.ids == ids
    {
      this.db := db;
      this.ids := ids;
    }

    /** GET `/search` (lines 20-46). An empty filter builds a statement ending in `WHERE `,
        which the server rejects; the handler answers that with a 500. */
    method Search(filter: SearchFilter) returns (reply: Reply<seq<Product>>)
      ensures var cs := FilterClauses(filter); var rows := SearchRows(db.products, cs);
        && (cs == [] ==> reply == Fail(500, ServerError))
        && (cs != [] && rows == [] ==> reply == Fail(404, NoProductsFound))
        && (cs != [] && rows != [] ==>
              reply.Ok? && reply.status == 200 && |reply.value| == |rows|
              && forall k :: 0 <= k < |rows| ==> reply.value[k] == Listed(rows[k], db.comments, db.images))
    {
      var query, values := GetProductsFilterQuery(filter);
      var cs := FilterClauses(filter);
      JoinedWithOrEmpty(cs);
      assert query == SearchPrefix <==> cs == [] by {
        assert query == SearchPrefix + JoinedWithOr(cs);
        assert |query| == |SearchPrefix| + |JoinedWithOr(cs)|;
      }
      if query == SearchPrefix {
        return Fail(500, ServerError);
      }
      var rows := SearchRows(db.products, cs);
      if |rows| == 0 {
        return Fail(404, NoProductsFound);
      }
      var products := ListView(rows, db.comments, db.images);
      reply := Ok(200, products);
    }

    /** GET `/:id` (lines 49-90). */
    method GetById(id: string) returns (reply: Reply<Product>)
      ensures SelectProduct(db.products, id).None? ==> reply == Fail(404, NotFound(id))
      ensures SelectProduct(db.products, id).Some? ==>
                reply == Ok(200, DetailView(SelectProduct(db.products, id).value, db.comments, db.images))
    {
      var rows := Filter(db.products, ProductIdIs(id));
      FirstIsFilterHead(db.products, ProductIdIs(id));
      if |rows| == 0 {
        return Fail(404, NotFound(id));
      }
      var row := rows[0];
      var comments := Filter(db.comments, CommentOfProduct(id));
      var images := Filter(db.images, ImageOfProduct(id));
      var product := MapProduct(row);
      if |comments| > 0 {
        product := product.(comments := Some(MapComments(comments)));
      }
      if |images| > 0 {
        var imgs := MapImages(images);
        product := product.(images := Some(imgs));
        product := product.(thumbnail := if FirstMain(imgs).Some? then FirstMain(imgs) else Some(imgs[0]));
      }
      reply := Ok(200, product);
    }

    /** GET `/` (lines 93-107). */
    method GetAll() returns (reply: Reply<seq<Product>>)
      ensures reply.Ok? && reply.status == 200 && |reply.value| == |db.products|
      ensures forall k :: 0 <= k < |db.products| ==> reply.value[k] == Listed(db.products[k], db.comments, db.images)
    {
      var products := ListView(db.products, db.comments, db.images);
      reply := Ok(200, products);
    }

    /** The tuples of a bulk image insert, drawing one fresh id per image in order. */
    method NewImageValues(images: seq<ImagePayload>, productId: string) returns (values: seq<ImageTuple>)
      modifies ids
      ensures ids.issued == old(ids.issued) + |images|
      ensures values == ImageValues(ids.uuid, old(ids.issued), images, productId)
    {
      values := [];
      for k := 0 to |images|
        invariant ids.issued == old(ids.issued) + k
        invariant |values| == k
        invariant forall j :: 0 <= j < k ==>
          values[j] == ImageTuple(ids.uuid(old(ids.issued) + j), images[j].url, productId, MainFlag(images[j].main))
      {
        var imageId := ids.Next();
        values := values + [ImageTuple(imageId, images[k].url, productId, MainFlag(images[k].main))];
      }
    }

    /** The bulk image insert for a product, drawing one fresh id per image; with no
        images the statement is malformed and nothing is stored. */
    method StoreImages(images: seq<ImagePayload>, productId: string) returns (stored: bool)
      modifies db, ids
      ensures db.products == old(db.products) && db.comments == old(db.comments) && db.similarity == old(db.similarity)
      ensures stored <==> images != []
      ensures ids.issued == old(ids.issued) + |images|
      ensures !stored ==> db.images == old(db.images)
      ensures stored ==> db.images == InsertImages(old(db.images), ImageValues(ids.uuid, old(ids.issued), images, productId)).value
    {
      var values := NewImageValues(images, productId);
      var inserted := InsertImages(db.images, values);
      stored := inserted.Some?;
      if stored {
        db.images := inserted.value;
      }
    }

    /** POST `/` (lines 110-138). The product row is stored first; an empty `images` list
        then makes the bulk insert fail, so the answer is a 500 although the row stays. The
        answer is the row read back by the new id. */
    method Create(payload: ProductPayload) returns (reply: Reply<Product>)
      modifies db, ids
      ensures var row := ProductRow(ids.uuid(old(ids.issued)), OrNull(payload.title), OrNull(payload.description), PriceOrNull(payload.price));
        && db.products == old(db.products) + [row]
        && (payload.images != Some([]) ==> reply == Ok(201, MapProduct(ReadBack(old(db.products), row))))
      ensures db.comments == old(db.comments) && db.similarity == old(db.similarity)
      ensures payload.images.None? ==> db.images == old(db.images) && ids.issued == old(ids.issued) + 1
      ensures payload.images == Some([]) ==> db.images == old(db.images) && reply == Fail(500, ServerError)
      ensures payload.images.Some? && payload.images.value != [] ==>
                ids.issued == old(ids.issued) + 1 + |payload.images.value|
                && db.images == InsertImages(old(db.images), ImageValues(ids.uuid, old(ids.issued) + 1, payload.images.value, ids.uuid(old(ids.issued)))).value
    {
      var id := ids.Next();
      ghost var before := db.products;
      ghost var row := ProductRow(id, OrNull(payload.title), OrNull(payload.description), PriceOrNull(payload.price));
      db.products := InsertProduct(db.products, id, OrNull(payload.title), OrNull(payload.description), PriceOrNull(payload.price));
      assert db.products == before + [row];
      var stored := true;
      if payload.images.Some? {
        stored := StoreImages(payload.images.value, id);
      }
      if !stored {
        return Fail(500, ServerError);
      }
      var found := Filter(db.products, ProductIdIs(id));
      FirstIsFilterHead(db.products, ProductIdIs(id));
      assert SelectProduct(db.products, id) == Some(ReadBack(before, row));
      reply := Ok(201, MapProduct(found[0]));
    }

    /** DELETE `/:id` (lines 141-176): comments, then images, then the product row. The
        child rows go even when no product row existed. */
    method Delete(id: string) returns (reply: Reply<string>)
      modifies db
      ensures db.comments == Reject(old(db.comments), CommentOfProduct(id))
      ensures db.images == Reject(old(db.images), ImageOfProduct(id))
      ensures db.products == Reject(old(db.products), ProductIdIs(id))
      ensures db.similarity == old(db.similarity)
      ensures reply == if SelectProduct(old(db.products), id).None? then Fail(404, NotFound(id)) else Ok(200, "")
    {
      db.comments := Reject(db.comments, CommentOfProduct(id));
      db.images := Reject(db.images, ImageOfProduct(id));
      var affected := Count(db.products, ProductIdIs(id));
      CountZero(db.products, ProductIdIs(id));
      db.products := Reject(db.products, ProductIdIs(id));
      if affected == 0 {
        return Fail(404, NotFound(id));
      }
      reply := Ok(200, "");
    }

    /** POST `/add-images` (lines 179-200): no check that the product exists or that it
        keeps a single main image. */
    method AddImages(productId: string, images: Option<seq<ImagePayload>>) returns (reply: Reply<string>)
      modifies db, ids
      ensures db.products == old(db.products) && db.comments == old(db.comments) && db.similarity == old(db.similarity)
      ensures ImagesRejected(images) ==>
                reply == Fail(400, ImagesEmpty) && db.images == old(db.images) && ids.issued == old(ids.issued)
      ensures images.Some? && images.value != [] ==>
                reply == Ok(201, "Image has been added to product id:" + productId)
                && ids.issued == old(ids.issued) + |images.value|
                && db.images == InsertImages(old(db.images), ImageValues(ids.uuid, old(ids.issued), images.value, productId)).value
    {
      if images.None? || |images.value| == 0 {
        return Fail(400, ImagesEmpty);
      }
      var stored := StoreImages(images.value, productId);
      reply := Ok(201, "Image has been added to product id:" + productId);
    }

    /** POST `/remove-images` (lines 203-227). The route has no `:productId`, so both
        messages read `undefined`. */
    method RemoveImages(body: Option<seq<string>>) returns (reply: Reply<string>)
      modifies db
      ensures db.products == old(db.products) && db.comments == old(db.comments) && db.similarity == old(db.similarity)
      ensures body.None? || body == Some([]) ==> reply == Fail(400, ImagesMalformed) && db.images == old(db.images)
      ensures body.Some? && body.value != [] ==>
                db.images == Reject(old(db.images), ImageIdIn(body.value))
                && reply == if forall i :: 0 <= i < |old(db.images)| ==> old(db.images)[i].imageId !in body.value
                            then Fail(404, "No images found for product id undefined")
                            else Ok(200, "All images for product id undefined have been deleted")
    {
      if body.None? || |body.value| == 0 {
        return Fail(400, ImagesMalformed);
      }
      var affected := Count(db.images, ImageIdIn(body.value));
      CountZero(db.images, ImageIdIn(body.value));
      db.images := Reject(db.images, ImageIdIn(body.value));
      if affected == 0 {
        return Fail(404, "No images found for product id undefined");
      }
      reply := Ok(200, "All images for product id undefined have been deleted");
    }

    /** POST `/update-thumbnail/:id` (lines 230-284). The `404` of line 273 cannot happen:
        the current thumbnail row always matches the `UPDATE`. */
    method UpdateThumbnail(id: string, newThumbnailId: Option<string>) returns (reply: Reply<string>)
      modifies db
      ensures db.products == old(db.products) && db.comments == old(db.comments) && db.similarity == old(db.similarity)
      ensures ThumbnailErrors(id, newThumbnailId) != [] ==>
                reply == Invalid(ThumbnailErrors(id, newThumbnailId)) && db.images == old(db.images)
      ensures ThumbnailErrors(id, newThumbnailId) == [] ==>
        var current := Filter(old(db.images), MainImageOf(id));
        var next := Filter(old(db.images), ImageOfProductWithId(id, newThumbnailId.value));
        && (|current| != 1 ==> reply == Fail(400, IncorrectProductId) && db.images == old(db.images))
        && (|current| == 1 && |next| != 1 ==> reply == Fail(400, IncorrectThumbnailId) && db.images == old(db.images))
        && (|current| == 1 && |next| == 1 ==>
              reply == Ok(200, ThumbnailSet) && db.images == SwapMain(old(db.images), current[0].imageId, newThumbnailId.value))
    {
      var errors := ThumbnailErrors(id, newThumbnailId);
      if errors != [] {
        return Invalid(errors);
      }
      var newId := newThumbnailId.value;
      var current := Filter(db.images, MainImageOf(id));
      if |current| == 0 || |current| > 1 {
        return Fail(400, IncorrectProductId);
      }
      var next := Filter(db.images, ImageOfProductWithId(id, newId));
      if |next| != 1 {
        return Fail(400, IncorrectThumbnailId);
      }
      var currentId := current[0].imageId;
      var affected := Count(db.images, ImageIdIn([currentId, newId]));
      FilterMembers(db.images, MainImageOf(id));
      assert current[0] in db.images;
      CountZero(db.images, ImageIdIn([currentId, newId]));
      assert affected != 0;
      db.images := SwapMain(db.images, currentId, newId);
      reply := Ok(200, ThumbnailSet);
    }

    /** PATCH `/:id` (lines 287-321): each field takes the body's value when the key is
        there, and the stored value of the first row otherwise. */
    method Patch(id: string, patch: ProductPatch) returns (reply: Reply<string>)
      modifies db
      ensures db.comments == old(db.comments) && db.images == old(db.images) && db.similarity == old(db.similarity)
      ensures SelectProduct(old(db.products), id).None? ==> reply == Fail(404, NotFound(id)) && db.products == old(db.products)
      ensures SelectProduct(old(db.products), id).Some? ==>
        reply == Ok(200, "Product id:" + id + " has been added!")
        && db.products == PatchRows(old(db.products), id, patch, SelectProduct(old(db.products), id).value)
    {
      var rows := Filter(db.products, ProductIdIs(id));
      FirstIsFilterHead(db.products, ProductIdIs(id));
      if |rows| == 0 {
        return Fail(404, NotFound(id));
      }
      var current := rows[0];
      var title := if patch.title.Some? then patch.title.value else current.title;
      var description := if patch.description.Some? then patch.description.value else current.description;
      var price := if patch.price.Some? then patch.price.value else current.price;
      db.products := UpdateProduct(db.products, id, title, description, price);
      reply := Ok(200, "Product id:" + id + " has been added!");
    }

    /** GET `/similar/:id` (lines 324-359). */
    method Similar(id: string) returns (reply: Reply<set<SimilarProduct>>)
      ensures !IsUuid(id) ==> reply == Invalid([ProductIdNotUuid])
      ensures IsUuid(id) ==> (reply.Ok? && reply.status == 200
                && forall e :: e in reply.value <==>
                     exists p :: p in db.products && Linked(db.similarity, id, p.productId) && e == ToSimilar(p))
    {
      if !IsUuid(id) {
        return Invalid([ProductIdNotUuid]);
      }
      var rows := FindSimilar(db.similarity, db.products, id, id);
      FindSimilarIsNeighbours(db.similarity, db.products, id);
      reply := Ok(200, set p | p in rows :: ToSimilar(p));
    }

    /** POST `/add-similar` (lines 362-416): every pair is stored as given. */
    method AddSimilar(pairs: Option<seq<SimilarPair>>) returns (reply: Reply<string>)
      modifies db
      ensures db.products == old(db.products) && db.comments == old(db.comments) && db.images == old(db.images)
      ensures PairErrors(pairs) != [] ==> reply == Invalid(PairErrors(pairs)) && db.similarity == old(db.similarity)
      ensures PairErrors(pairs) == [] && (pairs.None? || pairs == Some([])) ==>
                reply == Fail(400, PairsMalformed) && db.similarity == old(db.similarity)
      ensures PairErrors(pairs) == [] && pairs.Some? && pairs.value != [] ==>
                reply == Ok(201, PairsAdded) && db.similarity == InsertSimilarity(old(db.similarity), pairs.value).value
    {
      var errors := PairErrors(pairs);
      if errors != [] {
        return Invalid(errors);
      }
      if pairs.None? || |pairs.value| == 0 {
        return Fail(400, PairsMalformed);
      }
      db.similarity := InsertSimilarity(db.similarity, pairs.value).value;
      reply := Ok(201, PairsAdded);
    }

    /** POST `/remove-similar` (lines 419-451): both directions go; 404 exactly when the two
        products were not linked. */
    method RemoveSimilar(productId: Option<string>, similarProductId: Option<string>) returns (reply: Reply<string>)
      modifies db
      ensures db.products == old(db.products) && db.comments == old(db.comments) && db.images == old(db.images)
      ensures RemoveSimilarErrors(productId, similarProductId) != [] ==>
                reply == Invalid(RemoveSimilarErrors(productId, similarProductId)) && db.similarity == old(db.similarity)
      ensures RemoveSimilarErrors(productId, similarProductId) == [] ==>
        var p, s := productId.value, similarProductId.value;
        && db.similarity == DeleteSimilar(old(db.similarity), p, s, s, p).0
        && !Linked(db.similarity, p, s)
        && reply == if Linked(old(db.similarity), p, s)
                    then Ok(200, "Similar product for product id " + p + " has been deleted")
                    else Fail(404, "No similar product found for product id " + p)
    {
      var errors := RemoveSimilarErrors(productId, similarProductId);
      if errors != [] {
        return Invalid(errors);
      }
      var p, s := productId.value, similarProductId.value;
      DeleteSimilarRemovesBothDirections(db.similarity, p, s);
      var (rest, affected) := DeleteSimilar(db.similarity, p, s, s, p);
      db.similarity := rest;
      if affected == 0 {
        return Fail(404, "No similar product found for product id " + p);
      }
      reply := Ok(200, "Similar product for product id " + p + " has been deleted");
    }
  }

  // ---- table updates and their properties ----

  /** `UPDATE products SET title = ?, description = ?, price = ? WHERE product_id = ?`. */
  function UpdateProduct(products: seq<ProductRow>, id: string, title: Option<string>, description: Option<string>, price: PriceCell): (r: seq<ProductRow>)
    ensures |r| == |products|
    ensures forall i :: 0 <= i < |products| && products[i].productId != id ==> r[i] == products[i]
    ensures forall i :: 0 <= i < |products| && products[i].productId == id ==> r[i] == ProductRow(id, title, description, price)
  {
    seq(|products|, i requires 0 <= i < |products| =>
      if products[i].productId == id then ProductRow(id, title, description, price) else products[i])
  }

  /** The table after a PATCH of `id` whose first row was `current`. */
  function PatchRows(products: seq<ProductRow>, id: string, patch: ProductPatch, current: ProductRow): seq<ProductRow>
  {
    UpdateProduct(products, id,
                  if patch.title.Some? then patch.title.value else current.title,
                  if patch.description.Some? then patch.description.value else current.description,
                  if patch.price.Some? then patch.price.value else current.price)
  }

  /** Product ids are unique, as the primary key makes them. */
  ghost predicate UniqueProductIds(products: seq<ProductRow>)
  {
    forall i, j :: 0 <= i < j < |products| ==> products[i].productId != products[j].productId
  }

  /** A merge-patch: with unique ids the patched row takes the body's value for each key
      present in the body (also a `null`) and keeps its own value for each missing key; every
      other row is unchanged. An empty body changes nothing. */
  lemma PatchMerges(products: seq<ProductRow>, k: nat, patch: ProductPatch)
    requires UniqueProductIds(products) && k < |products|
    ensures var id := products[k].productId;
      var after := PatchRows(products, id, patch, SelectProduct(products, id).value);
      && |after| == |products|
      && after[k].productId == id
      && after[k].title == (if patch.title.Some? then patch.title.value else products[k].title)
      && after[k].description == (if patch.description.Some? then patch.description.value else products[k].description)
      && after[k].price == (if patch.price.Some? then patch.price.value else products[k].price)
      && (forall i :: 0 <= i < |products| && i != k ==> after[i] == products[i])
      && (patch == ProductPatch(None, None, None) ==> after == products)
  {
    var id := products[k].productId;
    var r := SelectProduct(products, id);
    assert r.Some?;
    var i :| 0 <= i < |products| && products[i] == r.value
             && forall j :: 0 <= j < i ==> products[j].productId != id;
    assert products[i].productId == id == products[k].productId;
    assert i == k;
  }

  /** The similar answer renames `product_id` to `id` and copies the other columns as stored. */
  function ToSimilar(p: ProductRow): (e: SimilarProduct)
    ensures e.id == p.productId && e.title == p.title && e.description == p.description && e.price == p.price
  {
    SimilarProduct(p.productId, p.title, p.description, p.price)
  }

  /** The cascade of DELETE `/:id`: afterwards no comment, image or products row refers to
      the id, every other row is still there in its order, and a product that had no row
      can still have lost its comments and images. */
  lemma DeleteCascade(products: seq<ProductRow>, comments: seq<CommentRow>, images: seq<ImageRow>, id: string)
    ensures var ps := Reject(products, ProductIdIs(id));
      var cs := Reject(comments, CommentOfProduct(id));
      var ims := Reject(images, ImageOfProduct(id));
      && (forall r :: r in ps <==> r in products && r.productId != id)
      && (forall r :: r in cs <==> r in comments && r.productId != id)
      && (forall r :: r in ims <==> r in images && r.productId != id)
      && IsSubsequence(ps, products) && IsSubsequence(cs, comments) && IsSubsequence(ims, images)
  {
    RejectMembers(products, ProductIdIs(id));
    RejectMembers(comments, CommentOfProduct(id));
    RejectMembers(images, ImageOfProduct(id));
    RejectIsSubsequence(products, ProductIdIs(id));
    RejectIsSubsequence(comments, CommentOfProduct(id));
    RejectIsSubsequence(images, ImageOfProduct(id));
  }

  /** add-images does not keep one main image per product: adding a main image to a
      product that has one already leaves it with two. */
  lemma AddImagesAllowsTwoMains(images: seq<ImageRow>, uuid: nat -> string, from: nat, k: nat, url: string)
    requires k < |images| && images[k].main == 1
    ensures var after := InsertImages(images, ImageValues(uuid, from, [ImagePayload(url, true)], images[k].productId)).value;
      && |after| == |images| + 1
      && after[k].productId == after[|images|].productId && after[k].main == 1 && after[|images|].main == 1
  {
  }

  /** add-similar makes no duplicate check: a pair stored already is stored twice. */
  lemma AddSimilarKeepsDuplicates(similarity: seq<SimilarityRow>, pairs: seq<SimilarPair>, i: nat, k: nat)
    requires i < |similarity| && k < |pairs|
    requires similarity[i] == SimilarityRow(pairs[k].productId, pairs[k].similarProductId)
    ensures var after := InsertSimilarity(similarity, pairs).value;
      i != |similarity| + k && after[i] == after[|similarity| + k]
  {
  }
}
