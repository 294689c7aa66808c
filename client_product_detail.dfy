/** The product page of the shop client
    (Shop.Client/src/components/product/ProductDetailPage.tsx): the gallery under the
    thumbnail. */
module ClientProductDetail {
  import opened Types
  import opened Wrappers
  import opened Seqs

  /** The image is not the thumbnail: `image.id !== product.thumbnail?.id`. */
  predicate NotThumbnail(product: Product, image: Image)
  {
    product.thumbnail.None? || image.id != product.thumbnail.value.id
  }

  /** `otherImages` (line 55): the product's images without the thumbnail, or none when the
      product carries no images. */
  function OtherImages(product: Product): seq<Image>
  {
    if product.images.None? then [] else Filter(product.images.value, (image: Image) => NotThumbnail(product, image))
  }

  /** The gallery is taken from the images in order, leaves out every image with the
      thumbnail's id and keeps every copy of all others. */
  lemma OtherImagesMeaning(product: Product)
    ensures product.images.None? ==> OtherImages(product) == []
    ensures product.images.Some? ==> IsSubsequence(OtherImages(product), product.images.value)
    ensures product.images.Some? ==> forall image :: image in OtherImages(product) <==>
      image in product.images.value && (product.thumbnail.None? || image.id != product.thumbnail.value.id)
    ensures product.images.Some? ==> forall image :: (multiset(OtherImages(product))[image]
      == if NotThumbnail(product, image) then multiset(product.images.value)[image] else 0)
    ensures product.thumbnail.Some? ==> forall i :: 0 <= i < |OtherImages(product)| ==> OtherImages(product)[i].id != product.thumbnail.value.id
  {
    if product.images.Some? {
      var keep := (image: Image) => NotThumbnail(product, image);
      FilterIsSubsequence(product.images.value, keep);
      FilterMembers(product.images.value, keep);
      FilterMultiplicity(product.images.value, keep);
    }
  }

  /** Without a thumbnail the gallery is every image. */
  lemma NoThumbnailShowsAll(product: Product)
    requires product.thumbnail.None? && product.images.Some?
    ensures OtherImages(product) == product.images.value
  {
    FilterKeepsAll(product.images.value, (image: Image) => NotThumbnail(product, image));
  }
}
