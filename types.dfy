/** The records the system passes around: the domain entities of `Shared/types.ts` and the
    storage rows and payloads of `Shop.API/types.ts`. */
module Types {
  import opened Wrappers

  // ---- domain entities (Shared/types.ts) ----

  datatype Comment = Comment(id: string, name: string, email: string, body: string, productId: string)

  datatype Image = Image(id: string, productId: string, main: bool, url: string)

  /** `IProduct`; the three optional fields are absent (`None`) until a handler attaches them. */
  datatype Product = Product(
    id: string,
    title: string,
    description: string,
    price: int,
    comments: Option<seq<Comment>>,
    images: Option<seq<Image>>,
    thumbnail: Option<Image>)

  // ---- storage rows (Shop.API/types.ts) ----

  /** A value of the `price` column as the driver hands it over: NULL, a number, or something
      `Number` cannot read (it gives NaN). */
  datatype PriceCell = NullPrice | Amount(value: int) | Malformed

  /** A row of `products(product_id, title, description, price)`; title and description are
      nullable because the create handler stores a falsy value as NULL. */
  datatype ProductRow = ProductRow(productId: string, title: Option<string>, description: Option<string>, price: PriceCell)

  /** A row of `comments(comment_id, name, email, body, product_id)`. */
  datatype CommentRow = CommentRow(commentId: string, name: string, email: string, body: string, productId: string)

  /** A row of `images(image_id, url, product_id, main)`; `main` is a number column. */
  datatype ImageRow = ImageRow(imageId: string, url: string, productId: string, main: int)

  /** A row of `product_similarity(product_id, similar_product_id)`: a directed pair. */
  datatype SimilarityRow = SimilarityRow(productId: string, similarProductId: string)

  // ---- payloads ----

  /** `IProductSearchFilter`: every field optional. */
  datatype SearchFilter = SearchFilter(title: Option<string>, description: Option<string>, priceFrom: Option<int>, priceTo: Option<int>)

  /** `ImageCreatePayload`. */
  datatype ImagePayload = ImagePayload(url: string, main: bool)

  /** `CommentCreatePayload` once its fields are known to be strings. */
  datatype CommentPayload = CommentPayload(name: string, email: string, body: string, productId: string)

  /** A pair of the add-similar body, `{ product_id, similar_product_id }`. */
  datatype SimilarPair = SimilarPair(productId: string, similarProductId: string)

  /** A loosely typed JSON value of a request body, as far as `typeof` tells them apart. */
  datatype JsValue = JsString(text: string) | JsNumber(number: int) | JsOther
}
