/** The relational meaning of the SQL the API runs (Shop.API/src/services/queries.ts and the
    inline statements of the two routers): tables are sequences of rows, a `WHERE` clause is a
    predicate on one row, a `SELECT` keeps the matching rows in table order, a `DELETE` drops
    them, and an `INSERT` appends. */
module Queries {
  import opened Wrappers
  import opened Types
  import opened Seqs

  // ---- WHERE clauses ----

  /** `product_id = ?` on products. */
  function ProductIdIs(id: string): ProductRow -> bool { (r: ProductRow) => r.productId == id }

  /** `product_id = ?` on comments. */
  function CommentOfProduct(id: string): CommentRow -> bool { (r: CommentRow) => r.productId == id }

  /** `comment_id = ?`. */
  function CommentIdIs(id: string): CommentRow -> bool { (r: CommentRow) => r.commentId == id }

  /** `product_id = ?` on images. */
  function ImageOfProduct(id: string): ImageRow -> bool { (r: ImageRow) => r.productId == id }

  /** `product_id=? AND main=?` bound with 1. */
  function MainImageOf(id: string): ImageRow -> bool { (r: ImageRow) => r.productId == id && r.main == 1 }

  /** `product_id=? AND image_id=?`. */
  function ImageOfProductWithId(id: string, imageId: string): ImageRow -> bool
  {
    (r: ImageRow) => r.productId == id && r.imageId == imageId
  }

  /** `image_id IN ?`. */
  function ImageIdIn(ids: seq<string>): ImageRow -> bool { (r: ImageRow) => r.imageId in ids }

  // ---- INSERT_PRODUCT_QUERY and INSERT_PRODUCT_IMAGES_QUERY ----

  /** One value tuple `(product_id, title, description, price)` becomes one products row. */
  function InsertProduct(table: seq<ProductRow>, id: string, title: Option<string>, description: Option<string>, price: PriceCell): (r: seq<ProductRow>)
    ensures |r| == |table| + 1 && r[..|table|] == table
    ensures r[|table|].productId == id && r[|table|].title == title
    ensures r[|table|].description == description && r[|table|].price == price
  {
    table + [ProductRow(id, title, description, price)]
  }

  /** A value tuple of the bulk image insert, in column order `(image_id, url, product_id, main)`. */
  datatype ImageTuple = ImageTuple(imageId: string, url: string, productId: string, main: int)

  /** `VALUES ?` with a list of tuples: one row per tuple, in order. With an empty list the
      statement reads `VALUES ` and the server rejects it (`None`). */
  function InsertImages(table: seq<ImageRow>, values: seq<ImageTuple>): (r: Option<seq<ImageRow>>)
    ensures r.None? <==> values == []
    ensures r.Some? ==> |r.value| == |table| + |values| && r.value[..|table|] == table
    ensures r.Some? ==> forall i :: 0 <= i < |values| ==>
      r.value[|table| + i] == ImageRow(values[i].imageId, values[i].url, values[i].productId, values[i].main)
  {
    if values == [] then None
    else Some(table + seq(|values|, i requires 0 <= i < |values| =>
                                    ImageRow(values[i].imageId, values[i].url, values[i].productId, values[i].main)))
  }

  // ---- the similarity relation ----

  /** `product_similarity` read as an undirected relation: a pair stored in either direction. */
  ghost predicate Linked(similarity: seq<SimilarityRow>, x: string, y: string)
  {
    exists s :: s in similarity && ((s.productId == x && s.similarProductId == y) || (s.productId == y && s.similarProductId == x))
  }

  /** `FIND_SIMILAR_PRODUCTS` bound with `(first, second)`: the partners of rows whose
      `product_id` is `first`, UNION the partners of rows whose `similar_product_id` is
      `second`, each joined with its products row. The UNION is a set: no duplicate rows and
      no order. */
  function FindSimilar(similarity: seq<SimilarityRow>, products: seq<ProductRow>, first: string, second: string): (r: set<ProductRow>)
    ensures forall p :: p in r ==> p in products
  {
    (set s, p | s in similarity && p in products && s.productId == first && s.similarProductId == p.productId :: p)
    + (set s, p | s in similarity && p in products && s.similarProductId == second && s.productId == p.productId :: p)
  }

  /** Bound with `(x, x)`, as the handler does, the query returns exactly the products rows of
      the products linked to `x` in either direction. */
  lemma FindSimilarIsNeighbours(similarity: seq<SimilarityRow>, products: seq<ProductRow>, x: string)
    ensures forall p :: p in FindSimilar(similarity, products, x, x) <==> p in products && Linked(similarity, x, p.productId)
  {
    forall p | p in products && Linked(similarity, x, p.productId)
      ensures p in FindSimilar(similarity, products, x, x)
    {
      var s :| s in similarity && ((s.productId == x && s.similarProductId == p.productId) || (s.productId == p.productId && s.similarProductId == x));
      if s.productId == x && s.similarProductId == p.productId {
        assert p in (set s, p | s in similarity && p in products && s.productId == x && s.similarProductId == p.productId :: p);
      } else {
        assert p in (set s, p | s in similarity && p in products && s.similarProductId == x && s.productId == p.productId :: p);
      }
    }
  }

  /** The neighbour relation the query computes is symmetric: `y`'s row is among `x`'s
      neighbours iff `x`'s row is among `y`'s. */
  lemma FindSimilarSymmetric(similarity: seq<SimilarityRow>, products: seq<ProductRow>, px: ProductRow, py: ProductRow)
    requires px in products && py in products
    ensures py in FindSimilar(similarity, products, px.productId, px.productId)
        <==> px in FindSimilar(similarity, products, py.productId, py.productId)
  {
    FindSimilarIsNeighbours(similarity, products, px.productId);
    FindSimilarIsNeighbours(similarity, products, py.productId);
  }

  /** The `WHERE` of `DELETE_SIMILAR_PRODUCTS` bound with `(a, b, c, d)`. */
  function PairIsEither(a: string, b: string, c: string, d: string): SimilarityRow -> bool
  {
    (s: SimilarityRow) => (s.productId == a && s.similarProductId == b) || (s.productId == c && s.similarProductId == d)
  }

  /** `DELETE_SIMILAR_PRODUCTS`: the rows left and the number of rows deleted. */
  function DeleteSimilar(similarity: seq<SimilarityRow>, a: string, b: string, c: string, d: string): (r: (seq<SimilarityRow>, nat))
    ensures r.1 == |similarity| - |r.0|
    ensures forall s :: s in r.0 <==> s in similarity && !PairIsEither(a, b, c, d)(s)
  {
    RejectCount(similarity, PairIsEither(a, b, c, d));
    RejectMembers(similarity, PairIsEither(a, b, c, d));
    (Reject(similarity, PairIsEither(a, b, c, d)), Count(similarity, PairIsEither(a, b, c, d)))
  }

  /** Bound with `(p, s, s, p)`, as the handler does: exactly the rows `(p, s)` and `(s, p)`
      go, every other row stays in its order, and the two products are no longer linked. */
  lemma DeleteSimilarRemovesBothDirections(similarity: seq<SimilarityRow>, p: string, s: string)
    ensures var (rest, n) := DeleteSimilar(similarity, p, s, s, p);
      && (forall r :: r in rest <==> r in similarity && r != SimilarityRow(p, s) && r != SimilarityRow(s, p))
      && IsSubsequence(rest, similarity)
      && !Linked(rest, p, s)
      && (n == 0 <==> !Linked(similarity, p, s))
  {
    var (rest, n) := DeleteSimilar(similarity, p, s, s, p);
    var drop := PairIsEither(p, s, s, p);
    assert forall r :: drop(r) <==> r == SimilarityRow(p, s) || r == SimilarityRow(s, p);
    RejectIsSubsequence(similarity, drop);
    assert !Linked(rest, p, s) by {
      if Linked(rest, p, s) {
        var w :| w in rest && ((w.productId == p && w.similarProductId == s) || (w.productId == s && w.similarProductId == p));
      }
    }
    CountZero(similarity, drop);
    if Linked(similarity, p, s) {
      var w :| w in similarity && ((w.productId == p && w.similarProductId == s) || (w.productId == s && w.similarProductId == p));
      var i :| 0 <= i < |similarity| && similarity[i] == w;
      assert drop(similarity[i]);
    } else {
      forall i | 0 <= i < |similarity| ensures !drop(similarity[i]) {
        assert similarity[i] in similarity;
      }
    }
  }

  /** The bulk insert of add-similar: every pair as given, even a pair already stored or
      stored the other way round. With an empty list the statement is malformed (`None`). */
  function InsertSimilarity(similarity: seq<SimilarityRow>, pairs: seq<SimilarPair>): (r: Option<seq<SimilarityRow>>)
    ensures r.None? <==> pairs == []
    ensures r.Some? ==> |r.value| == |similarity| + |pairs| && r.value[..|similarity|] == similarity
    ensures r.Some? ==> forall i :: 0 <= i < |pairs| ==>
      r.value[|similarity| + i] == SimilarityRow(pairs[i].productId, pairs[i].similarProductId)
  {
    if pairs == [] then None
    else Some(similarity + seq(|pairs|, i requires 0 <= i < |pairs| => SimilarityRow(pairs[i].productId, pairs[i].similarProductId)))
  }

  /** After inserting a pair `(a, b)` both directions of the neighbour query see it, as long
      as the partner has a products row. */
  lemma InsertedPairIsLinked(similarity: seq<SimilarityRow>, products: seq<ProductRow>, pairs: seq<SimilarPair>, k: nat, pa: ProductRow, pb: ProductRow)
    requires k < |pairs| && pa in products && pb in products
    requires pa.productId == pairs[k].productId && pb.productId == pairs[k].similarProductId
    ensures var after := InsertSimilarity(similarity, pairs).value;
      pb in FindSimilar(after, products, pa.productId, pa.productId)
      && pa in FindSimilar(after, products, pb.productId, pb.productId)
  {
    var after := InsertSimilarity(similarity, pairs).value;
    assert after[|similarity| + k] in after;
    FindSimilarIsNeighbours(after, products, pa.productId);
    FindSimilarIsNeighbours(after, products, pb.productId);
  }

  // ---- the thumbnail swap ----

  /** `SET main = CASE WHEN image_id = cur THEN 0 WHEN image_id = new THEN 1 ELSE main END`. */
  function SwapMainRow(r: ImageRow, current: string, next: string): ImageRow
  {
    if r.imageId == current then r.(main := 0)
    else if r.imageId == next then r.(main := 1)
    else r
  }

  /** The swap `UPDATE` over the whole table: rows outside `IN (cur, new)` are untouched. */
  function SwapMain(images: seq<ImageRow>, current: string, next: string): (r: seq<ImageRow>)
    ensures |r| == |images|
    ensures forall i :: 0 <= i < |images| ==> r[i] == SwapMainRow(images[i], current, next)
  {
    if images == [] then [] else [SwapMainRow(images[0], current, next)] + SwapMain(images[1..], current, next)
  }

  /** Row `i` of the image table is the only row with its id. */
  ghost predicate UniqueImageIds(images: seq<ImageRow>)
  {
    forall i, j :: 0 <= i < j < |images| ==> images[i].imageId != images[j].imageId
  }

  /** What the swap does to each row: the current thumbnail row gets 0 (also when it is the
      new one: the first CASE branch wins), the new one gets 1, every other row, every url
      and every product id stays as it was. */
  lemma SwapMainEffect(images: seq<ImageRow>, current: string, next: string, i: nat)
    requires i < |images|
    ensures var r := SwapMain(images, current, next)[i];
      && r.imageId == images[i].imageId && r.url == images[i].url && r.productId == images[i].productId
      && (images[i].imageId == current ==> r.main == 0)
      && (images[i].imageId == next && next != current ==> r.main == 1)
      && (images[i].imageId != current && images[i].imageId != next ==> r == images[i])
  {
  }

  /** The thumbnail policy the swap keeps: if image ids are unique, the product has exactly
      one main row `current` and `next` is another image of the same product, then afterwards
      the product's only main row is `next`. */
  lemma SwapKeepsOneMain(images: seq<ImageRow>, pid: string, c: nat, n: nat)
    requires UniqueImageIds(images)
    requires c < |images| && n < |images| && c != n
    requires images[c].productId == pid && images[c].main == 1
    requires images[n].productId == pid
    requires forall i :: 0 <= i < |images| && images[i].productId == pid && images[i].main == 1 ==> i == c
    ensures var after := SwapMain(images, images[c].imageId, images[n].imageId);
      && after[n].main == 1 && after[n].productId == pid
      && forall i :: 0 <= i < |after| && after[i].productId == pid && after[i].main == 1 ==> i == n
  {
  }
}
