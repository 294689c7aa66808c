# Shop catalog core in Dafny

This project models the catalog logic of a small three-part shop written in TypeScript. The
parts are:

- an Express/MySQL API (`Shop.API`);
- an admin panel (`Shop.Admin`);
- a React client (`Shop.Client`).

The four MySQL tables `products`, `comments`, `images` and `product_similarity` are held as
sequences of rows in the class `Storage.Database`. Every route handler is a method of a router
class (`ProductsApi.ProductsRouter`, `CommentsApi.CommentsRouter`). It reads and replaces those
sequences, and returns a `Http.Reply`: a status with a body, a list of validation messages, or
no reply at all when the handler throws outside its `try`. `uuidv4` is the class
`Storage.IdSource`, whose `n`-th call answers `uuid(n)` for a function `uuid` fixed by the
caller.

The modules follow the source tree:

| module | models |
|---|---|
| `Types` | `Shared/types.ts` and `Shop.API/types.ts` |
| `Mapping` | `Shop.API/src/services/mapping.ts` |
| `Helpers` | `Shop.API/src/helpers.ts` |
| `Queries` | `Shop.API/src/services/queries.ts` and the inline SQL of the handlers, as functions on row sequences |
| `ProductsApi` | `Shop.API/src/api/products-api.ts` |
| `CommentsApi` | `Shop.API/src/api/comments-api.ts` |
| `AdminProducts` | `Shop.Admin/models/products.model.ts` |
| `ClientProductsList` | the filter of `Shop.Client/src/components/productsList/ProductsListPage.tsx` |
| `ClientProductDetail` | the gallery of `Shop.Client/src/components/product/ProductDetailPage.tsx` |
| `Wrappers`, `Seqs`, `Text`, `Http`, `Storage` | shared support: `Option`, filtering, ASCII text, replies and `isUUID`, the tables |

The model follows the code wherever the code and its documentation disagree:

- An empty search filter builds `SELECT * FROM products WHERE ` with nothing after it. MySQL
  rejects that statement, so the search handler answers 500 `Something went wrong`. It does
  not list every product.
- The `remove-images` route declares no `:productId` parameter. Its messages therefore read
  `product id undefined`.
- A comment POST whose name, e-mail or body is a number passes `validateComment`. It then
  throws on `toLowerCase` outside the handler's `try`, so no reply is sent
  (`Http.Reply.NoReply`).

## Model

| member | source | states |
|---|---|---|
| Mapping.MapComment | Shop.API/src/services/mapping.ts:5-13 | `comment_id` becomes `id`, `product_id` becomes `productId`; name, e-mail and body are carried over unchanged |
| Mapping.MapCommentRoundTrip | Shop.API/src/services/mapping.ts:5-13 | renaming back recovers the row exactly, so no column is lost |
| Mapping.MapComments | Shop.API/src/services/mapping.ts:15-17 | same length as the rows; element `i` is the mapped row `i` |
| Mapping.MapCommentsAppend | Shop.API/src/services/mapping.ts:15-17 | mapping distributes over concatenation, so row order is kept |
| Mapping.TextOrEmpty | Shop.API/src/services/mapping.ts:23-24 | `""` exactly when the column is NULL or empty; otherwise the stored text |
| Mapping.PriceOrZero | Shop.API/src/services/mapping.ts:25 | a numeric price is kept; NULL and NaN give 0 |
| Mapping.MapProduct | Shop.API/src/services/mapping.ts:20-26 | id from `product_id`, falsy texts become `""`, price through `Number(price) \|\| 0`; no comments, images or thumbnail yet |
| Mapping.MapProducts | Shop.API/src/services/mapping.ts:20-27 | same length and order as the rows |
| Mapping.MapImage | Shop.API/src/services/mapping.ts:29-38 | id, product id and url copied; `main` is true iff the stored flag is nonzero |
| Mapping.MapImageRoundTrip | Shop.API/src/services/mapping.ts:29-38 | mapping back recovers the row iff its flag is 0 or 1 (`Boolean` forgets other values) |
| Mapping.MapImages | Shop.API/src/services/mapping.ts:40-42 | same length as the rows; element `i` is the mapped row `i` |
| Mapping.MapImagesAppend | Shop.API/src/services/mapping.ts:40-42 | mapping distributes over concatenation, so row order is kept |
| Helpers.FirstMissing | Shop.API/src/helpers.ts:13-18 | none iff every required field is present; otherwise the first absent one in list order |
| Helpers.FirstWrongType | Shop.API/src/helpers.ts:20-24 | none iff every value is a string or number; otherwise the key of the first other value |
| Helpers.ValidationPasses | Shop.API/src/helpers.ts:8-27 | validation passes iff a body is given, all of name, email, body, productId are present and every value is a string or number |
| Helpers.ValidateComment | Shop.API/src/helpers.ts:8-27 | the loop returns the message of the first failed check in source order: absent body, first missing field, first wrongly typed value |
| Helpers.CheckCommentUniq | Shop.API/src/helpers.ts:34-47 | true when no e-mail matches case-insensitively; false iff the FIRST e-mail match also matches body, name and productId |
| Helpers.FindByEmailFirst | Shop.API/src/helpers.ts:35 | `find` answers the earliest e-mail match, and that index is unique |
| Helpers.CheckCommentUniqJudgesFirstMatchOnly | Shop.API/src/helpers.ts:34-47 | a duplicate behind an earlier e-mail match that differs in body is not detected |
| Helpers.CommentsOfMembers | Shop.API/src/helpers.ts:53-65 | a product's group holds exactly its mapped rows; it is empty iff no row has the product id |
| Helpers.CommentsOfSnoc | Shop.API/src/helpers.ts:55-65 | one more row extends only its own product's group, at the end |
| Helpers.GroupComments | Shop.API/src/helpers.ts:53-65 | the map built by the loop has a product exactly when it has rows, holding them in row order |
| Helpers.EnhanceProductsComments | Shop.API/src/helpers.ts:49-75 | the same array is returned, each product updated in place: comments set when the product has rows, the previous value kept otherwise |
| Helpers.GetProductsFilterQuery | Shop.API/src/helpers.ts:77-110 | the three `if` blocks, each appending with `+=` and `push`, yield the prefix followed by the clauses joined by ` OR `, with the values of the clauses in the same order |
| Helpers.FilterQueryValues | Shop.API/src/helpers.ts:85-107 | values are `%title%`, `%description%`, then `priceFrom \|\| 0` and `priceTo \|\| 999999`, each only when its field is truthy |
| Helpers.PlaceholdersMatchValues | Shop.API/src/helpers.ts:85-107 | the joined clauses hold exactly one `?` per value |
| Helpers.FilterQueryPlaceholders | Shop.API/src/helpers.ts:82-107 | the whole statement holds exactly one `?` per value |
| Helpers.EmptyFilterQuery | Shop.API/src/helpers.ts:82-109 | with no truthy field the statement is exactly `SELECT * FROM products WHERE ` and there are no values |
| Helpers.SearchMatchesAnyField | Shop.API/src/helpers.ts:85-107 | a row matches iff its title or its description contains the text, or its price lies strictly between the bounds (OR, never AND) |
| Helpers.ImagesOfBelong | Shop.API/src/helpers.ts:119-128 | a product's image group holds only its images; it is empty iff no row has the product id |
| Helpers.ImagesOfSnoc | Shop.API/src/helpers.ts:119-128 | one more row extends only its own product's group, at the end |
| Helpers.LastMainIsLast | Shop.API/src/helpers.ts:130-132 | the kept thumbnail is a `main` image with no `main` image after it; none iff no image is `main` |
| Helpers.LastMainSnoc | Shop.API/src/helpers.ts:130-132 | a later `main` image overwrites the earlier one |
| Helpers.GroupImages | Shop.API/src/helpers.ts:116-133 | the two maps built by the loop hold each product's images in row order and its last `main` image |
| Helpers.WithImagesThumbnail | Shop.API/src/helpers.ts:135-146 | the thumbnail is the last `main` image, else the first image, else none; a set thumbnail belongs to the product's images |
| Helpers.EnhanceProductsImages | Shop.API/src/helpers.ts:112-150 | the same array is returned, each product updated in place with its images and thumbnail |
| Queries.InsertProduct | Shop.API/src/services/queries.ts:1-6 | one row with the given four values is appended; the old rows stay in front |
| Queries.InsertImages | Shop.API/src/services/queries.ts:8-12 | one row per value tuple, appended in order; an empty tuple list is an error (MySQL rejects `VALUES` with nothing) |
| Queries.FindSimilar | Shop.API/src/services/queries.ts:14-23 | every answer is a row of `products`, so a partner id without a products row never appears (the JOIN drops it) |
| Queries.FindSimilarIsNeighbours | Shop.API/src/services/queries.ts:14-23 | bound as `(X, X)`, the answer is exactly the products linked to X in either direction |
| Queries.FindSimilarSymmetric | Shop.API/src/services/queries.ts:14-23 | Y is similar to X iff X is similar to Y |
| Queries.DeleteSimilar | Shop.API/src/services/queries.ts:25-26 | keeps exactly the rows matching neither pattern; the count is the number of rows removed |
| Queries.DeleteSimilarRemovesBothDirections | Shop.API/src/services/queries.ts:25-26 | bound as `[p,s,s,p]`, exactly `(p,s)` and `(s,p)` go, the rest keep their order, and the count is 0 iff the two were not linked |
| Queries.InsertSimilarity | Shop.API/src/api/products-api.ts:398-407 | one row per pair, appended in order; an empty list is an error |
| Queries.InsertedPairIsLinked | Shop.API/src/api/products-api.ts:398-407 | after the insert each pair's products are similar to each other in both directions |
| Queries.SwapMain | Shop.API/src/api/products-api.ts:269-271 | the CASE update rewrites each row on its own, and the length is kept |
| Queries.SwapMainEffect | Shop.API/src/api/products-api.ts:269-271 | the current image gets 0, the new one 1 (the first WHEN wins if they are the same), every other row is unchanged |
| Queries.SwapKeepsOneMain | Shop.API/src/api/products-api.ts:248-271 | when the product had one main image and the new id is a different image of it, afterwards exactly the new one is main |
| ProductsApi.SelectProduct | Shop.API/src/api/products-api.ts:54-59 | none iff no row has the id; otherwise the first row that has it |
| ProductsApi.SelectProductAppend | Shop.API/src/api/products-api.ts:127-132 | reading back an appended row gives an earlier row with the same id if one exists, else the row itself |
| ProductsApi.FirstMain | Shop.API/src/api/products-api.ts:83 | `find(image => image.main)`: none iff no image is main, else the earliest main one |
| ProductsApi.DetailViewMeaning | Shop.API/src/api/products-api.ts:65-84 | comments and images are set only when the product has rows; the thumbnail is the FIRST main image, else the first image |
| ProductsApi.ThumbnailViewsAgree | Shop.API/src/api/products-api.ts:83 | with at most one main image the single-product and the list thumbnails coincide |
| ProductsApi.ThumbnailViewsDiffer | Shop.API/src/api/products-api.ts:83 | with two main images the single-product view keeps the first and the list view the last |
| ProductsApi.ListView | Shop.API/src/api/products-api.ts:38-40 | one listed product per row, in row order, with its comments and images attached |
| ProductsApi.SearchRows | Shop.API/src/api/products-api.ts:26 | the rows the search statement selects: exactly the matching rows, in table order |
| ProductsApi.JoinedWithOrEmpty | Shop.API/src/helpers.ts:85-107 | the joined clause text is empty iff there is no clause |
| ProductsApi.Repeat | Shop.API/src/api/products-api.ts:366-367 | one validation message per offending element |
| ProductsApi.PairErrorsEmpty | Shop.API/src/api/products-api.ts:366-374 | no validation error iff both ids of every pair are UUIDs |
| ProductsApi.OrNull | Shop.API/src/api/products-api.ts:119 | `text \|\| null`: NULL iff the text is missing or empty |
| ProductsApi.PriceOrNull | Shop.API/src/api/products-api.ts:119 | `price \|\| null`: NULL iff the price is missing or 0 |
| ProductsApi.ReadBack | Shop.API/src/api/products-api.ts:127-132 | the row the handler reads back after its insert; the new row itself when its id was not taken |
| ProductsApi.ImageValues | Shop.API/src/api/products-api.ts:123 | one tuple per image, in order, with the next fresh id, the url, the product id and the flag as 0/1 |
| ProductsApi.ProductsRouter.Search | Shop.API/src/api/products-api.ts:20-46 | 500 for an empty filter, 404 when no row matches, else every matching row with comments and images, in table order |
| ProductsApi.ProductsRouter.GetById | Shop.API/src/api/products-api.ts:49-90 | 404 `Product with id … is not found` when no row has the id, else the detail view of the first such row |
| ProductsApi.ProductsRouter.GetAll | Shop.API/src/api/products-api.ts:93-107 | 200 with every product, in table order, comments and images attached |
| ProductsApi.ProductsRouter.NewImageValues | Shop.API/src/api/products-api.ts:123 | the `images.map` loop draws one fresh id per image and builds the tuples in order |
| ProductsApi.ProductsRouter.StoreImages | Shop.API/src/api/products-api.ts:122-125 | an image list is inserted with fresh ids; an empty one makes the statement fail and changes nothing |
| ProductsApi.ProductsRouter.Create | Shop.API/src/api/products-api.ts:110-138 | appends a row with a fresh id, title/description `\|\| null` and price `\|\| null`, inserts the images, answers 201 with the product read back; an empty image list gives 500 after the product row is stored |
| ProductsApi.ProductsRouter.Delete | Shop.API/src/api/products-api.ts:141-176 | deletes the product's comments, images and row, leaves similarity rows; 404 iff no product row existed (the children are gone anyway) |
| ProductsApi.ProductsRouter.AddImages | Shop.API/src/api/products-api.ts:179-200 | a missing or empty list is 400 and changes nothing; otherwise one row per image with a fresh id is appended, with no check on `main` |
| ProductsApi.ProductsRouter.RemoveImages | Shop.API/src/api/products-api.ts:203-227 | a body that is not a non-empty array is 400; otherwise the listed images are deleted, 404 iff none existed |
| ProductsApi.ProductsRouter.UpdateThumbnail | Shop.API/src/api/products-api.ts:230-284 | validation errors are 400; unless exactly one image of the product is main it is 400 `Incorrect product id`; unless exactly one image has the product and the new id it is 400 `Incorrect new thumbnail id`; both change nothing; otherwise the CASE swap and 200 |
| ProductsApi.ProductsRouter.Patch | Shop.API/src/api/products-api.ts:287-321 | 404 and no change for an unknown id; otherwise each field takes the body value iff its key is present (null included) and the current value otherwise |
| ProductsApi.ProductsRouter.Similar | Shop.API/src/api/products-api.ts:324-359 | a non-UUID id is 400; otherwise `{id,title,description,price}` of exactly the linked products |
| ProductsApi.ProductsRouter.AddSimilar | Shop.API/src/api/products-api.ts:362-416 | validation errors are 400; a missing or empty list is 400; otherwise every pair is appended as given, duplicates and reverses included |
| ProductsApi.ProductsRouter.RemoveSimilar | Shop.API/src/api/products-api.ts:419-450 | validation errors are 400; otherwise both directions are deleted, the two are no longer linked, and it is 404 iff they were not linked |
| ProductsApi.UpdateProduct | Shop.API/src/api/products-api.ts:307-314 | every row with the id gets the three new values; other rows are unchanged |
| ProductsApi.PatchMerges | Shop.API/src/api/products-api.ts:305-313 | with unique ids, the patched row merges present keys over the current row, every other row is unchanged, and an empty patch changes nothing |
| ProductsApi.ToSimilar | Shop.API/src/api/products-api.ts:345-350 | the answer element copies id, title, description and price of the row |
| ProductsApi.DeleteCascade | Shop.API/src/api/products-api.ts:147-162 | after the three deletes no product, comment or image row has the id; the others remain, in order |
| ProductsApi.AddImagesAllowsTwoMains | Shop.API/src/api/products-api.ts:192-193 | adding a main image to a product that has one leaves two main images |
| ProductsApi.AddSimilarKeepsDuplicates | Shop.API/src/api/products-api.ts:398-407 | a pair already stored is stored a second time |
| CommentsApi.ValueOf | Shop.API/src/api/comments-api.ts:90 | the value of a key in the body; none iff the key is absent |
| CommentsApi.PayloadNeedsTexts | Shop.API/src/api/comments-api.ts:90-102 | after validation, the handler throws iff name, email or body is a number |
| CommentsApi.DuplicateIsPerProduct | Shop.API/src/api/comments-api.ts:91-101 | when no comment belongs to the product, nothing is a duplicate, whatever its texts |
| CommentsApi.AssignmentsInOrder | Shop.API/src/api/comments-api.ts:156-165 | the assignments are name, body, email in that order, each only when its key is present |
| CommentsApi.Fields | Shop.API/src/api/comments-api.ts:162 | the field names of the assignments, in order |
| CommentsApi.Values | Shop.API/src/api/comments-api.ts:163 | the values of the assignments, in order |
| CommentsApi.BuildCommentUpdate | Shop.API/src/api/comments-api.ts:153-168 | the loop yields `UPDATE comments SET `, the `field = ?` items joined by `, `, then ` WHERE comment_id = ?`; values in the same order with the id last |
| CommentsApi.UpdatePlaceholders | Shop.API/src/api/comments-api.ts:153-168 | the statement holds exactly one `?` per value |
| CommentsApi.SetClausePlaceholders | Shop.API/src/api/comments-api.ts:158-162 | the SET clause holds one `?` per field |
| CommentsApi.EmptyPatchStatement | Shop.API/src/api/comments-api.ts:153-168 | with no field present the statement is `UPDATE comments SET  WHERE comment_id = ?` and the only value is the id |
| CommentsApi.UpdateComments | Shop.API/src/api/comments-api.ts:170 | rows with the id take the present fields and keep the others; other rows are unchanged |
| CommentsApi.OneRowIffExists | Shop.API/src/api/comments-api.ts:172 | with unique ids, exactly one row is affected iff some row has the id |
| CommentsApi.CommentsRouter.GetAll | Shop.API/src/api/comments-api.ts:28-41 | 200 with every comment mapped, in table order |
| CommentsApi.CommentsRouter.GetById | Shop.API/src/api/comments-api.ts:44-76 | a non-UUID id is 400; 404 when no row has the id; else the first such row mapped |
| CommentsApi.CommentsRouter.Post | Shop.API/src/api/comments-api.ts:78-139 | 400 with the validation message and no change; no reply when a text is a number; 422 and no change when a comment of the same product matches lower-cased e-mail, name and body; otherwise exactly one row with a fresh id is appended and 201 |
| CommentsApi.CommentsRouter.Patch | Shop.API/src/api/comments-api.ts:141-183 | a falsy id is 400; no field is 500 (the statement is invalid); otherwise the update is applied and 200 iff exactly one row was affected, 404 otherwise |
| CommentsApi.CommentsRouter.Delete | Shop.API/src/api/comments-api.ts:186-204 | the rows with the id are deleted; 200 iff exactly one was, 404 otherwise |
| AdminProducts.DataOrEmpty | Shop.Admin/models/products.model.ts:8 | `data \|\| []`: the data when present, `[]` otherwise |
| AdminProducts.SplitOnSeparators | Shop.Admin/models/products.model.ts:23 | splitting always yields at least one piece |
| AdminProducts.TrimAll | Shop.Admin/models/products.model.ts:24 | each piece trimmed, same length and order |
| AdminProducts.PiecesHaveNoComma | Shop.Admin/models/products.model.ts:23 | no piece contains `,` |
| AdminProducts.SplitNewImagesClean | Shop.Admin/models/products.model.ts:21-26 | every url is non-empty, has no `,` and no white space at either end |
| AdminProducts.SplitNewImagesOrder | Shop.Admin/models/products.model.ts:21-26 | the urls of `a + sep + b` are the urls of `a` followed by those of `b`; the default `""` gives `[]` |
| AdminProducts.SplitNewImagesSingle | Shop.Admin/models/products.model.ts:21-26 | a text without separator gives its trimmed self, or nothing when that is empty |
| AdminProducts.CompileIds | Shop.Admin/models/products.model.ts:28-31 | `[s]` for a string, the array itself for an array |
| AdminProducts.NumberOfNumberText | Shop.Admin/models/products.model.ts:138 | `Number` reads back every integer written in decimal |
| AdminProducts.PriceField | Shop.Admin/models/products.model.ts:138 | a readable price is sent as that number, an unreadable one (NaN, sent as `null`) as NULL |
| AdminProducts.AdminPatchOverwrites | Shop.Admin/models/products.model.ts:135-139 | the admin's PATCH always sends all three keys, so the row takes the form's title, description and price |
| AdminProducts.NewImages | Shop.Admin/models/products.model.ts:101-106 | one payload per url, in order; only the first is main, and only when the product has no thumbnail; at most one is main |
| AdminProducts.NewImagePayloads | Shop.Admin/models/products.model.ts:101-106 | the in-place `images[0].main = true` on an array; it throws iff there is no url and no thumbnail |
| AdminProducts.CommentDeletes | Shop.Admin/models/products.model.ts:85-90 | one delete request per comment id, in order |
| AdminProducts.SimilarPairs | Shop.Admin/models/products.model.ts:120-124 | one pair per id, each with the edited product's id first |
| AdminProducts.SimilarPairsAccepted | Shop.Admin/models/products.model.ts:120-125 | the API accepts the pairs iff every id is a UUID and, when there is an id, so is the product's |
| AdminProducts.UpdateProduct | Shop.Admin/models/products.model.ts:74-146 | the requests are sent in source order. The run stops at the new-images step in two cases. With no thumbnail, `images[0]` throws and only the removals were sent. With a thumbnail, the empty add-images request is sent and refused with 400, and nothing after it is sent. It completes in every other case |
| AdminProducts.CompletesIffUrls | Shop.Admin/models/products.model.ts:100-108 | the run completes iff the new-image text is falsy or holds a url; a refused run's image request is `add-images` with no image |
| AdminProducts.SendRemovals | Shop.Admin/models/products.model.ts:84-97 | the comment deletes then the image removal, each when its field is given |
| AdminProducts.SendLater | Shop.Admin/models/products.model.ts:111-139 | the thumbnail update, similar additions and removals, then the PATCH |
| AdminProducts.RemovalKinds | Shop.Admin/models/products.model.ts:84-97 | the first requests are deletes; a comment is deleted iff its id is listed |
| AdminProducts.UpdateRequestsEnd | Shop.Admin/models/products.model.ts:100-145 | a completed run ends with the PATCH; a throw leaves only removals; a refused add-images request is the last one sent, so there is no PATCH |
| AdminProducts.UpdateRequestsDeletes | Shop.Admin/models/products.model.ts:85-90 | a comment delete is requested iff its id is listed |
| AdminProducts.UpdateRequestsThumbnail | Shop.Admin/models/products.model.ts:112-116 | the only thumbnail request names the form's main image; it is sent iff the main image is truthy and differs from the current thumbnail id (and the run did not stop at the new images) |
| AdminProducts.UpdateRequestsImages | Shop.Admin/models/products.model.ts:100-108 | an add-images request carries the product id and one image per url, in order, the first main iff the product has no thumbnail |
| AdminProducts.UpdateRequestsSimilar | Shop.Admin/models/products.model.ts:119-125 | an add-similar request carries one pair per listed id, each with the edited product |
| AdminProducts.ExcludeIdsMeaning | Shop.Admin/models/products.model.ts:177-178 | an id is in `excludeIds` iff it is the edited product's or a similar product's |
| AdminProducts.GetOtherProducts | Shop.Admin/models/products.model.ts:162-188 | none when the similar list is not an array; otherwise, in original order and with every copy, exactly the products that are neither the product itself nor similar to it |
| ClientProductsList.FilterProductsMeaning | Shop.Client/src/components/productsList/ProductsListPage.tsx:35-42 | the list shown keeps the order and every copy of exactly the products whose lower-cased title contains the lower-cased search and whose price passes both bounds (AND) |
| ClientProductsList.EmptyFiltersShowAll | Shop.Client/src/components/productsList/ProductsListPage.tsx:36-40 | empty search and empty bounds show every product |
| ClientProductsList.BoundsInclusive | Shop.Client/src/components/productsList/ProductsListPage.tsx:38-39 | with numeric bounds a product is shown iff `min <= price <= max` |
| ClientProductsList.EmptyBoundIgnored | Shop.Client/src/components/productsList/ProductsListPage.tsx:38-39 | an empty bound ignores its side |
| ClientProductDetail.OtherImagesMeaning | Shop.Client/src/components/product/ProductDetailPage.tsx:55 | empty without images; otherwise a subsequence of the images that holds every copy of every image except those with the thumbnail's id |
| ClientProductDetail.NoThumbnailShowsAll | Shop.Client/src/components/product/ProductDetailPage.tsx:55 | without a thumbnail the gallery is every image |

## Left out

- Connection setup, Express routing and response objects (`index.ts`, `Server/services/db.ts`) are not part of this model. Each handler's outcome is a `Http.Reply`.
- Set-up code with an `ensures` that models nothing of its own: `Storage.Database.constructor`, `Storage.IdSource.constructor`, `Storage.IdSource.Next`, the two router constructors, `ProductsApi.ToArray` and `Helpers.Lookup`.
- The catch-all 500 answers for database failures that a sequence model cannot raise. The exceptions are the failures the code itself causes, which are modelled: an empty `VALUES` list, and the dangling `WHERE` or empty `SET`.
- `uuidv4` is the caller's function `uuid`; freshness and randomness are not modelled. `isUUID` is checked as the 8-4-4-4-12 hexadecimal shape, without the version rules of express-validator's default.
- `LIKE` is plain substring search: `%` and `_` inside the search text are not treated as wildcards. MySQL collation is not modelled: comparisons are exact, and `LOWER`/`toLowerCase`/`trim` are ASCII only.
- `affectedRows` is the number of rows a statement matches. In MySQL an UPDATE that leaves a row unchanged does not count it.
- MySQL type coercion is not modelled. Non-string values in a comment PATCH are taken as strings, a PATCH `price` is stored as given, and a body parsed from JSON has each key once.
- Prices are integers. Floating point, `parseInt`/`Number` on fractions, exponents, hexadecimal and `Infinity` are left out: only optional sign and decimal digits are read, and anything else is "not a number".
- Helpers.GetProductsFilterQuery: `priceFrom`/`priceTo` arrive as numbers already read from the query string. The string `"0"`, which is truthy in JavaScript, is not distinguished from the number 0.
- UNION order: `Queries.FindSimilar` is a set, so the order of the `similarProducts` answer is not modelled.
- ProductsApi.ProductsRouter.Similar: the fields that `ISimilarProductEntity` declares but the handler does not read (`Shop.API/types.ts:46-50`) are not modelled.
- A missing `product_id` or `similar_product_id` in an add-similar pair is taken as `""`, which fails the UUID check as express-validator does.
- ProductsApi.ProductsRouter.AddImages: a missing `productId` is taken as a string. The row it stores with an undefined product id is not distinguished.
- ProductsApi.ProductsRouter.RemoveSimilar: the admin panel sends `similarProductId` as an array. The model's remove request carries the id list, but the validator's treatment of an array is not modelled.
- Network and concurrency: the axios calls, the `Promise.all` fan-out of comment deletes and concurrent requests. The admin's requests are modelled as the ordered list it sends when the server accepts each one. An error status makes axios throw and stops the sequence; server answers are not modelled.
- AdminProducts.UpdateProduct: the current product the admin fetches first is a parameter, not a network call.
- AdminProducts.UpdateProduct: the one server refusal modelled is add-images with no image, which the API refuses whatever the tables hold. Every other request is taken as accepted. A 4xx or 5xx answer to one of them, such as update-thumbnail with a main image that is not a UUID, would make axios throw and stop the run; the model does not stop there.
- `getProduct`, `addProduct`, `removeProduct` and `getSimilarProducts` of `Shop.Admin/models/products.model.ts` are plain network wrappers and are not modelled. `getSimilarProducts` answers `[]` when its request fails, which `GetOtherProducts` receives as an empty list (`Some([])`), so every product but the edited one is offered. `GetOtherProducts` receiving no list (`None`) stands only for a successful answer whose `similarProducts` is not an array.
- CommentsApi.CommentsRouter.Post: the 500 answer of the insert's `catch` cannot occur on a sequence table and is not modelled.
- AdminProducts.CompileIds: its contract restates the two branches of the source, since there is nothing more to say about `[data]` or `data`.
- UI rendering, React state hooks, the admin's session and login handling (`auth.controller.ts`, `products.controller.ts`), and the home page's price sum, which is float accumulation.
