/** Conversion of storage rows into domain entities (Shop.API/src/services/mapping.ts). */
module Mapping {
  import opened Wrappers
  import opened Types

  /** `mapCommentEntity`: renames the two id columns and copies the rest. */
  function MapComment(row: CommentRow): (c: Comment)
    ensures c.id == row.commentId && c.productId == row.productId
    ensures c.name == row.name && c.email == row.email && c.body == row.body
  {
    Comment(row.commentId, row.name, row.email, row.body, row.productId)
  }

  /** The row a comment came from: nothing is lost by the mapping. */
  function CommentToRow(c: Comment): CommentRow
  {
    CommentRow(c.id, c.name, c.email, c.body, c.productId)
  }

  lemma MapCommentRoundTrip(row: CommentRow)
    ensures CommentToRow(MapComment(row)) == row
  {
  }

  /** `mapCommentsEntity`: element-wise, keeping length and order. */
  function MapComments(rows: seq<CommentRow>): (r: seq<Comment>)
    ensures |r| == |rows|
    ensures forall i :: 0 <= i < |rows| ==> r[i] == MapComment(rows[i])
  {
    if rows == [] then [] else [MapComment(rows[0])] + MapComments(rows[1..])
  }

  lemma MapCommentsAppend(a: seq<CommentRow>, b: seq<CommentRow>)
    ensures MapComments(a + b) == MapComments(a) + MapComments(b)
  {
    var l, r := MapComments(a + b), MapComments(a) + MapComments(b);
    forall i | 0 <= i < |l|
      ensures l[i] == r[i]
    {
      if i < |a| {
        assert (a + b)[i] == a[i];
      } else {
        assert (a + b)[i] == b[i - |a|];
      }
    }
    assert l == r;
  }

  /** `title || ""`: NULL and the empty string both become the empty string. */
  function TextOrEmpty(s: Option<string>): (r: string)
    ensures r == "" <==> s == None || s == Some("")
    ensures s.Some? ==> r == s.value
  {
    if s.Some? then s.value else ""
  }

  /** `Number(price) || 0`: NULL and NaN become 0. */
  function PriceOrZero(p: PriceCell): (r: int)
    ensures p.Amount? ==> r == p.value
    ensures !p.Amount? ==> r == 0
  {
    match p
    case Amount(v) => v
    case _ => 0
  }

  /** The element function of `mapProductsEntity`; no comments, images or thumbnail yet. */
  function MapProduct(row: ProductRow): (p: Product)
    ensures p.id == row.productId
    ensures p.title == TextOrEmpty(row.title) && p.description == TextOrEmpty(row.description)
    ensures p.price == PriceOrZero(row.price)
    ensures p.comments == None && p.images == None && p.thumbnail == None
  {
    Product(row.productId, TextOrEmpty(row.title), TextOrEmpty(row.description), PriceOrZero(row.price), None, None, None)
  }

  /** `mapProductsEntity`. */
  function MapProducts(rows: seq<ProductRow>): (r: seq<Product>)
    ensures |r| == |rows|
    ensures forall i :: 0 <= i < |rows| ==> r[i] == MapProduct(rows[i])
  {
    if rows == [] then [] else [MapProduct(rows[0])] + MapProducts(rows[1..])
  }

  /** `mapImageEntity`: `Boolean(main)` is true exactly for a nonzero column value. */
  function MapImage(row: ImageRow): (img: Image)
    ensures img.id == row.imageId && img.productId == row.productId && img.url == row.url
    ensures img.main <==> row.main != 0
  {
    Image(row.imageId, row.productId, row.main != 0, row.url)
  }

  /** The row an image is stored as (with `main` as 1 or 0). */
  function ImageToRow(img: Image): ImageRow
  {
    ImageRow(img.id, img.url, img.productId, if img.main then 1 else 0)
  }

  /** The mapping loses nothing exactly when the stored flag is 0 or 1. */
  lemma MapImageRoundTrip(row: ImageRow)
    ensures ImageToRow(MapImage(row)) == row <==> row.main == 0 || row.main == 1
  {
  }

  /** `mapImagesEntity`. */
  function MapImages(rows: seq<ImageRow>): (r: seq<Image>)
    ensures |r| == |rows|
    ensures forall i :: 0 <= i < |rows| ==> r[i] == MapImage(rows[i])
  {
    if rows == [] then [] else [MapImage(rows[0])] + MapImages(rows[1..])
  }

  lemma MapImagesAppend(a: seq<ImageRow>, b: seq<ImageRow>)
    ensures MapImages(a + b) == MapImages(a) + MapImages(b)
  {
    var l, r := MapImages(a + b), MapImages(a) + MapImages(b);
    forall i | 0 <= i < |l|
      ensures l[i] == r[i]
    {
      if i < |a| {
        assert (a + b)[i] == a[i];
      } else {
        assert (a + b)[i] == b[i - |a|];
      }
    }
    assert l == r;
  }
}
