/** The state the two API routers share: the four MySQL tables behind the `connection` they
    import, and the `uuidv4` generator they draw fresh ids from. */
module Storage {
  import opened Types

  /** The database, each table a sequence of rows in storage order. */
  class Database {
    var products: seq<ProductRow>
    var comments: seq<CommentRow>
    var images: seq<ImageRow>
    var similarity: seq<SimilarityRow>

    constructor (products: seq<ProductRow>, comments: seq<CommentRow>, images: seq<ImageRow>, similarity: seq<SimilarityRow>)
      ensures this.products == products && this.comments == comments
      ensures this.images == images && this.similarity == similarity
    {
      this.products := products;
      this.comments := comments;
      this.images := images;
      this.similarity := similarity;
    }
  }

  /** `uuidv4()`: the `n`-th call answers `uuid(n)`; what the generator returns is not
      modelled beyond that. */
  class IdSource {
    const uuid: nat -> string
    var issued: nat

    constructor (uuid: nat -> string)
      ensures this.uuid == uuid && issued == 0
    {
      this.uuid := uuid;
      issued := 0;
    }

    /** One call of `uuidv4()`. */
    method Next() returns (id: string)
      modifies this
      ensures id == uuid(old(issued)) && issued == old(issued) + 1
    {
      id := uuid(issued);
      issued := issued + 1;
    }
  }
}
