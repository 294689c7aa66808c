/** The admin panel's product model (Shop.Admin/models/products.model.ts): the pure helpers
    and the requests `updateProduct` sends to the API, in the order it sends them. */
module AdminProducts {
  import opened Wrappers
  import opened Types
  import opened Seqs
  import opened Text
  import opened Http
  import opened ProductsApi

  // ---- response defaults ----

  /** `data || []` of `getProducts` and `searchProducts` (lines 8 and 18): a missing answer
      reads as no products, an array is kept as it is. */
  function DataOrEmpty(data: Option<seq<Product>>): (r: seq<Product>)
    ensures data.None? ==> r == []
    ensures data.Some? ==> r == data.value
  {
    if data.Some? then data.value else []
  }

  // ---- splitNewImages (lines 21-26) ----

  /** A separator of the `/\r\n|,/` pattern starts at position `i`. */
  predicate SeparatorAt(s: string, i: nat)
    requires i < |s|
  {
    s[i] == ',' || (s[i] == '\r' && i + 1 < |s| && s[i + 1] == '\n')
  }

  /** `s.split(/\r\n|,/g)`: the pieces between separators, read left to right; a text with
      no separator is one piece. */
  function SplitOnSeparators(s: string): (r: seq<string>)
    ensures r != []
  {
    if s == [] then [""]
    else if s[0] == ',' then [""] + SplitOnSeparators(s[1..])
    else if |s| > 1 && s[0] == '\r' && s[1] == '\n' then [""] + SplitOnSeparators(s[2..])
    else
      var rest := SplitOnSeparators(s[1..]);
      [[s[0]] + rest[0]] + rest[1..]
  }

  /** `.map(url => url.trim())`. */
  function TrimAll(pieces: seq<string>): (r: seq<string>)
    ensures |r| == |pieces| && forall i :: 0 <= i < |pieces| ==> r[i] == Trim(pieces[i])
  {
    seq(|pieces|, i requires 0 <= i < |pieces| => Trim(pieces[i]))
  }

  predicate NonBlank(url: string) { url != "" }

  /** `splitNewImages(str = "")`. */
  function SplitNewImages(s: string): seq<string>
  {
    Filter(TrimAll(SplitOnSeparators(s)), NonBlank)
  }

  /** No piece of the split holds a comma. */
  lemma {:induction false} PiecesHaveNoComma(s: string)
    ensures forall i, j :: 0 <= i < |SplitOnSeparators(s)| && 0 <= j < |SplitOnSeparators(s)[i]| ==> SplitOnSeparators(s)[i][j] != ','
  {
    if s == [] {
    } else if s[0] == ',' {
      PiecesHaveNoComma(s[1..]);
    } else if |s| > 1 && s[0] == '\r' && s[1] == '\n' {
      PiecesHaveNoComma(s[2..]);
    } else {
      var rest := SplitOnSeparators(s[1..]);
      PiecesHaveNoComma(s[1..]);
      var first := [s[0]] + rest[0];
      assert forall j :: 1 <= j < |first| ==> first[j] == rest[0][j - 1];
      assert SplitOnSeparators(s) == [first] + rest[1..];
      forall i, j | 0 <= i < |SplitOnSeparators(s)| && 0 <= j < |SplitOnSeparators(s)[i]|
        ensures SplitOnSeparators(s)[i][j] != ','
      {
        if i > 0 {
          assert SplitOnSeparators(s)[i] == rest[i];
        }
      }
    }
  }

  /** Trimming keeps a text free of commas. */
  lemma TrimKeepsNoComma(p: string)
    requires forall j :: 0 <= j < |p| ==> p[j] != ','
    ensures forall j :: 0 <= j < |Trim(p)| ==> Trim(p)[j] != ','
  {
    var a, b :| 0 <= a <= b <= |p| && Trim(p) == p[a..b];
    forall j | 0 <= j < |Trim(p)| ensures Trim(p)[j] != ',' {
      assert Trim(p)[j] == p[a + j];
    }
  }

  /** Every url the split yields is non-empty, holds no comma and has no white space at
      either end. */
  lemma SplitNewImagesClean(s: string)
    ensures forall i :: 0 <= i < |SplitNewImages(s)| ==>
      var url := SplitNewImages(s)[i];
      url != [] && !IsSpace(url[0]) && !IsSpace(url[|url| - 1])
      && forall j :: 0 <= j < |url| ==> url[j] != ','
  {
    var pieces := SplitOnSeparators(s);
    var trimmed := TrimAll(pieces);
    var urls := SplitNewImages(s);
    PiecesHaveNoComma(s);
    FilterMembers(trimmed, NonBlank);
    forall i | 0 <= i < |urls|
      ensures urls[i] != [] && !IsSpace(urls[i][0]) && !IsSpace(urls[i][|urls[i]| - 1])
      ensures forall j :: 0 <= j < |urls[i]| ==> urls[i][j] != ','
    {
      assert NonBlank(urls[i]);
      assert urls[i] in trimmed;
      var m :| 0 <= m < |trimmed| && trimmed[m] == urls[i];
      TrimKeepsNoComma(pieces[m]);
    }
  }

  /** The split of a text that starts with a separator of length `n`. */
  lemma SplitAfterSeparator(s: string, n: nat)
    requires (n == 1 && s != [] && s[0] == ',') || (n == 2 && |s| > 1 && s[0] == '\r' && s[1] == '\n')
    ensures SplitOnSeparators(s) == [""] + SplitOnSeparators(s[n..])
  {
  }

  /** The split of a text that does not start with a separator. */
  lemma SplitPlainHead(s: string)
    requires s != [] && s[0] != ',' && !(|s| > 1 && s[0] == '\r' && s[1] == '\n')
    ensures SplitOnSeparators(s) == [[s[0]] + SplitOnSeparators(s[1..])[0]] + SplitOnSeparators(s[1..])[1..]
  {
  }

  lemma DropFront(x: string, y: string, k: nat)
    requires k <= |x|
    ensures (x + y)[k..] == x[k..] + y
  {
  }

  /** A separator splits the text into the pieces of its two sides. */
  lemma {:induction false} SplitAtSeparator(a: string, sep: string, b: string)
    requires sep == "," || sep == "\r\n"
    ensures SplitOnSeparators(a + sep + b) == SplitOnSeparators(a) + SplitOnSeparators(b)
    decreases |a|, 1
  {
    AppendAssoc(a, sep, b);
    if a == [] {
      assert a + (sep + b) == sep + b;
      SplitAfterSeparator(sep + b, |sep|);
      DropFront(sep, b, |sep|);
    } else if a[0] == ',' {
      SplitAfterSeparatorCase(a, sep, b, 1);
    } else if |a| > 1 && a[0] == '\r' && a[1] == '\n' {
      SplitAfterSeparatorCase(a, sep, b, 2);
    } else {
      SplitPlainCase(a, sep, b);
    }
  }

  /** The case of a text starting with a separator of length `n`. */
  lemma {:induction false} SplitAfterSeparatorCase(a: string, sep: string, b: string, n: nat)
    requires sep == "," || sep == "\r\n"
    requires (n == 1 && a != [] && a[0] == ',') || (n == 2 && |a| > 1 && a[0] == '\r' && a[1] == '\n')
    ensures SplitOnSeparators(a + (sep + b)) == SplitOnSeparators(a) + SplitOnSeparators(b)
    decreases |a|, 0
  {
    var c := a + (sep + b);
    SplitAfterSeparator(c, n);
    SplitAfterSeparator(a, n);
    DropFront(a, sep + b, n);
    SplitAtSeparator(a[n..], sep, b);
    AppendAssoc(a[n..], sep, b);
    AppendAssoc([""], SplitOnSeparators(a[n..]), SplitOnSeparators(b));
  }

  /** The case of a text whose first character is not a separator. */
  lemma {:induction false} SplitPlainCase(a: string, sep: string, b: string)
    requires sep == "," || sep == "\r\n"
    requires a != [] && a[0] != ',' && !(|a| > 1 && a[0] == '\r' && a[1] == '\n')
    ensures SplitOnSeparators(a + (sep + b)) == SplitOnSeparators(a) + SplitOnSeparators(b)
    decreases |a|, 0
  {
    var c := a + (sep + b);
    assert c[0] == a[0] && c[1] == (if |a| > 1 then a[1] else sep[0]);
    SplitPlainHead(c);
    SplitPlainHead(a);
    DropFront(a, sep + b, 1);
    SplitAtSeparator(a[1..], sep, b);
    AppendAssoc(a[1..], sep, b);
    var rest := SplitOnSeparators(a[1..]);
    var right := SplitOnSeparators(b);
    assert (rest + right)[0] == rest[0];
    assert (rest + right)[1..] == rest[1..] + right;
    AppendAssoc([[a[0]] + rest[0]], rest[1..], right);
  }

  /** A text with no separator is a single piece. */
  lemma {:induction false} SplitNoSeparator(s: string)
    requires forall i :: 0 <= i < |s| ==> !SeparatorAt(s, i)
    ensures SplitOnSeparators(s) == [s]
  {
    if s != [] {
      assert !SeparatorAt(s, 0);
      forall i | 0 <= i < |s[1..]| ensures !SeparatorAt(s[1..], i) {
        assert !SeparatorAt(s, i + 1);
      }
      SplitNoSeparator(s[1..]);
      assert [s[0]] + s[1..] == s;
    }
  }

  lemma TrimAllAppend(x: seq<string>, y: seq<string>)
    ensures TrimAll(x + y) == TrimAll(x) + TrimAll(y)
  {
  }

  /** The urls keep their left-to-right order: a text cut at a separator gives the urls of
      its left part followed by those of its right part, and the default `""` gives none. */
  lemma SplitNewImagesOrder(a: string, sep: string, b: string)
    requires sep == "," || sep == "\r\n"
    ensures SplitNewImages(a + sep + b) == SplitNewImages(a) + SplitNewImages(b)
    ensures SplitNewImages("") == []
  {
    SplitAtSeparator(a, sep, b);
    TrimAllAppend(SplitOnSeparators(a), SplitOnSeparators(b));
    FilterAppend(TrimAll(SplitOnSeparators(a)), TrimAll(SplitOnSeparators(b)), NonBlank);
    assert SplitOnSeparators("") == [""];
    assert TrimAll([""]) == [Trim("")];
  }

  /** A text with no separator is one url, trimmed, or none when it is blank. */
  lemma SplitNewImagesSingle(s: string)
    requires forall i :: 0 <= i < |s| ==> !SeparatorAt(s, i)
    ensures SplitNewImages(s) == if Trim(s) == "" then [] else [Trim(s)]
  {
    SplitNoSeparator(s);
    assert TrimAll([s]) == [Trim(s)];
  }

  // ---- compileIdsToRemove (lines 28-31) ----

  /** A form field that is one id when one option is chosen and a list when several are. */
  datatype IdField = One(id: string) | Many(ids: seq<string>)

  /** `compileIdsToRemove`: a single id becomes a one-element list, a list is kept. */
  function CompileIds(data: IdField): (r: seq<string>)
    ensures data.One? ==> r == [data.id]
    ensures data.Many? ==> r == data.ids
  {
    match data
    case One(id) => [id]
    case Many(ids) => ids
  }

  /** The field is truthy: present, and not the empty string (a list is always truthy). */
  predicate Given(field: Option<IdField>)
  {
    field.Some? && field.value != One("")
  }

  // ---- updateProduct (lines 74-146) ----

  /** `IProductEditData`. */
  datatype EditForm = EditForm(
    title: string,
    description: string,
    price: string,
    mainImage: string,
    newImages: Option<string>,
    commentsToRemove: Option<IdField>,
    imagesToRemove: Option<IdField>,
    similarToAdd: Option<IdField>,
    similarToRemove: Option<IdField>)

  /** A request the admin sends to the API. */
  datatype Request =
    | DeleteComment(commentId: string)
    | RemoveImages(imageIds: seq<string>)
    | AddImages(productId: string, images: seq<ImagePayload>)
    | UpdateThumbnail(productId: string, newThumbnailId: string)
    | AddSimilar(pairs: seq<SimilarPair>)
    | RemoveSimilar(productId: string, similarProductIds: seq<string>)
    | PatchProduct(productId: string, patch: ProductPatch)

  /** `Number(s)` of a form field: the text without surrounding white space, an empty text
      being 0 and a decimal integer with an optional sign its value; anything else is NaN,
      `None` here. */
  function NumberOf(s: string): Option<int>
  {
    var t := Trim(s);
    if t == [] then Some(0)
    else
      var d := if t[0] == '-' || t[0] == '+' then t[1..] else t;
      if d == [] || exists i :: 0 <= i < |d| && !IsDigit(d[i]) then None
      else
        var v: int := DigitsValue(d);
        if t[0] == '-' then Some(-v) else Some(v)
  }

  lemma TrimNoSpaceEnds(s: string)
    requires s != [] && !IsSpace(s[0]) && !IsSpace(s[|s| - 1])
    ensures Trim(s) == s
  {
    assert LeadingSpaces(s) == 0;
    assert TrailingSpacesStart(s) == |s|;
  }

  /** `Number` reads back what `String` writes for an integer. */
  lemma NumberOfNumberText(n: int)
    ensures NumberOf(NumberText(n)) == Some(n)
  {
    var s := NumberText(n);
    if n < 0 {
      var d := DigitsOf(-n);
      assert s == "-" + d && s[1..] == d;
      assert IsDigit(s[|s| - 1]);
      TrimNoSpaceEnds(s);
    } else {
      var d := DigitsOf(n);
      assert s == d && IsDigit(s[0]) && IsDigit(s[|s| - 1]);
      TrimNoSpaceEnds(s);
    }
  }

  /** The `price` sent: `Number(formData.price)`, a NaN turning into JSON `null`. */
  function PriceField(s: string): (r: PriceCell)
    ensures NumberOf(s).Some? ==> r == Amount(NumberOf(s).value)
    ensures NumberOf(s).None? ==> r == NullPrice
  {
    if NumberOf(s).Some? then Amount(NumberOf(s).value) else NullPrice
  }

  /** The closing PATCH (lines 135-139): title, description and price, always all three. */
  function AdminPatch(form: EditForm): ProductPatch
  {
    ProductPatch(Some(Some(form.title)), Some(Some(form.description)), Some(PriceField(form.price)))
  }

  /** The API then overwrites the three columns of the product with the form's values. */
  lemma AdminPatchOverwrites(products: seq<ProductRow>, k: nat, form: EditForm)
    requires UniqueProductIds(products) && k < |products|
    ensures var id := products[k].productId;
      var after := PatchRows(products, id, AdminPatch(form), SelectProduct(products, id).value);
      && after[k] == ProductRow(id, Some(form.title), Some(form.description), PriceField(form.price))
  {
    PatchMerges(products, k, AdminPatch(form));
  }

  /** Lines 102-106: the new images, none main but the first when the product has no
      thumbnail. */
  function NewImages(urls: seq<string>, hasThumbnail: bool): (r: seq<ImagePayload>)
    ensures |r| == |urls|
    ensures forall i :: 0 <= i < |urls| ==> r[i].url == urls[i]
    ensures forall i :: 0 <= i < |urls| ==> (r[i].main <==> i == 0 && !hasThumbnail)
    ensures forall i, j :: 0 <= i < j < |urls| ==> !(r[i].main && r[j].main)
  {
    seq(|urls|, i requires 0 <= i < |urls| => ImagePayload(urls[i], i == 0 && !hasThumbnail))
  }

  /** The same built as the source does: all with `main: false`, then `images[0].main = true`
      when there is no thumbnail, which throws (`None`) when there is no url. */
  method NewImagePayloads(urls: seq<string>, hasThumbnail: bool) returns (r: Option<seq<ImagePayload>>)
    ensures r.None? <==> urls == [] && !hasThumbnail
    ensures r.Some? ==> r.value == NewImages(urls, hasThumbnail)
  {
    var images := new ImagePayload[|urls|](i requires 0 <= i < |urls| => ImagePayload(urls[i], false));
    if !hasThumbnail {
      if images.Length == 0 {
        return None;
      }
      images[0] := images[0].(main := true);
    }
    r := Some(images[..]);
  }

  /** One delete request per comment id (the `Promise.all` fan-out, sent in list order here). */
  function CommentDeletes(ids: seq<string>): (r: seq<Request>)
    ensures |r| == |ids| && forall i :: 0 <= i < |ids| ==> r[i] == DeleteComment(ids[i])
  {
    seq(|ids|, i requires 0 <= i < |ids| => DeleteComment(ids[i]))
  }

  /** Lines 120-124: one pair per id, each starting at the edited product. */
  function SimilarPairs(productId: string, ids: seq<string>): (r: seq<SimilarPair>)
    ensures |r| == |ids| && forall i :: 0 <= i < |ids| ==> r[i] == SimilarPair(productId, ids[i])
  {
    seq(|ids|, i requires 0 <= i < |ids| => SimilarPair(productId, ids[i]))
  }

  /** The API's add-similar checks accept these pairs exactly when the ids are UUIDs (the
      product's own id only mattering when there is a pair). */
  lemma SimilarPairsAccepted(productId: string, ids: seq<string>)
    ensures PairErrors(Some(SimilarPairs(productId, ids))) == []
        <==> (ids == [] || IsUuid(productId)) && forall i :: 0 <= i < |ids| ==> IsUuid(ids[i])
  {
    var pairs := SimilarPairs(productId, ids);
    PairErrorsEmpty(pairs);
    if ids != [] && !IsUuid(productId) {
      assert !IsUuid(pairs[0].productId);
    }
  }

  /** Line 112: the new main image is sent only when it is chosen and is not already the
      thumbnail. */
  predicate ThumbnailRequested(form: EditForm, current: Product)
  {
    form.mainImage != "" && (current.thumbnail.None? || current.thumbnail.value.id != form.mainImage)
  }

  /** The urls of the new-images field. */
  function NewUrls(form: EditForm): seq<string>
  {
    if form.newImages.Some? then SplitNewImages(form.newImages.value) else []
  }

  /** Line 105 throws: new-image text with no url, for a product without a thumbnail. */
  predicate NewImagesThrow(form: EditForm, current: Product)
  {
    Truthy(form.newImages) && NewUrls(form) == [] && current.thumbnail.None?
  }

  /** Lines 100-108 send add-images with no image: a new-image text with no url, for a
      product that has a thumbnail. The API refuses that list with 400, so axios throws and
      `updateProduct` rethrows (lines 141-145). */
  predicate NewImagesRejected(productId: string, form: EditForm, current: Product)
  {
    Truthy(form.newImages) && !NewImagesThrow(form, current)
    && ImagesRejected(Some(NewImages(NewUrls(form), current.thumbnail.Some?)))
  }

  /** The run reaches its end: the new-images step neither throws nor is refused. */
  predicate Completes(productId: string, form: EditForm, current: Product)
  {
    !NewImagesThrow(form, current) && !NewImagesRejected(productId, form, current)
  }

  /** The two ways the new-images step stops the run come to one condition: a new-image text
      that holds no url. */
  lemma CompletesIffUrls(productId: string, form: EditForm, current: Product)
    ensures Completes(productId, form, current) <==> !(Truthy(form.newImages) && NewUrls(form) == [])
    ensures NewImagesRejected(productId, form, current) ==> ImageRequests(productId, form, current) == [AddImages(productId, [])]
  {
    if Truthy(form.newImages) && NewUrls(form) != [] {
      assert |NewImages(NewUrls(form), current.thumbnail.Some?)| > 0;
    }
  }

  /** Lines 85-97: the comment deletions, then the image removal. */
  function RemovalRequests(form: EditForm): seq<Request>
  {
    (if Given(form.commentsToRemove) then CommentDeletes(CompileIds(form.commentsToRemove.value)) else [])
    + (if Given(form.imagesToRemove) then [RemoveImages(CompileIds(form.imagesToRemove.value))] else [])
  }

  /** Lines 100-109: the new images, when the field is given. */
  function ImageRequests(productId: string, form: EditForm, current: Product): seq<Request>
  {
    if Truthy(form.newImages) then [AddImages(productId, NewImages(NewUrls(form), current.thumbnail.Some?))] else []
  }

  /** Lines 112-116. */
  function ThumbnailRequests(productId: string, form: EditForm, current: Product): seq<Request>
  {
    if ThumbnailRequested(form, current) then [UpdateThumbnail(productId, form.mainImage)] else []
  }

  /** Lines 119-132: the similar additions, then the similar removals. */
  function SimilarRequests(productId: string, form: EditForm): seq<Request>
  {
    (if Given(form.similarToAdd) then [AddSimilar(SimilarPairs(productId, CompileIds(form.similarToAdd.value)))] else [])
    + (if Given(form.similarToRemove) then [RemoveSimilar(productId, CompileIds(form.similarToRemove.value))] else [])
  }

  /** Lines 112-139: thumbnail, similar additions and removals, the PATCH. */
  function RestRequests(productId: string, form: EditForm, current: Product): seq<Request>
  {
    ThumbnailRequests(productId, form, current) + SimilarRequests(productId, form) + [PatchProduct(productId, AdminPatch(form))]
  }

  /** Lines 100-139: new images, then the rest. */
  function LaterRequests(productId: string, form: EditForm, current: Product): seq<Request>
  {
    ImageRequests(productId, form, current) + RestRequests(productId, form, current)
  }

  /** The requests `updateProduct` sends, in order: a throw on line 105 stops after the
      removals, a refused add-images request stops right after itself. */
  function UpdateRequests(productId: string, form: EditForm, current: Product): seq<Request>
  {
    if NewImagesThrow(form, current) then RemovalRequests(form)
    else if NewImagesRejected(productId, form, current) then RemovalRequests(form) + ImageRequests(productId, form, current)
    else RemovalRequests(form) + LaterRequests(productId, form, current)
  }

  /** `updateProduct` given the product as the API returned it: the requests sent, in order,
      and whether the function ran to its end. */
  method UpdateProduct(productId: string, form: EditForm, current: Product) returns (requests: seq<Request>, completed: bool)
    ensures completed <==> Completes(productId, form, current)
    ensures requests == UpdateRequests(productId, form, current)
  {
    requests := SendRemovals(form);
    var images: seq<Request> := [];
    if Truthy(form.newImages) {
      var urls := SplitNewImages(form.newImages.value);
      var built := NewImagePayloads(urls, current.thumbnail.Some?);
      if built.None? {
        return requests, false;
      }
      images := [AddImages(productId, built.value)];
      if ImagesRejected(built) {
        return requests + images, false;
      }
    }
    assert images == ImageRequests(productId, form, current);
    var later := SendLater(productId, form, current);
    requests := requests + (images + later);
    completed := true;
  }

  /** Lines 85-97. */
  method SendRemovals(form: EditForm) returns (requests: seq<Request>)
    ensures requests == RemovalRequests(form)
  {
    requests := [];
    if Given(form.commentsToRemove) {
      requests := requests + CommentDeletes(CompileIds(form.commentsToRemove.value));
    }
    if Given(form.imagesToRemove) {
      requests := requests + [RemoveImages(CompileIds(form.imagesToRemove.value))];
    }
  }

  /** Lines 112-139. */
  method SendLater(productId: string, form: EditForm, current: Product) returns (requests: seq<Request>)
    ensures requests == RestRequests(productId, form, current)
  {
    requests := [];
    if ThumbnailRequested(form, current) {
      requests := requests + [UpdateThumbnail(productId, form.mainImage)];
    }
    if Given(form.similarToAdd) {
      requests := requests + [AddSimilar(SimilarPairs(productId, CompileIds(form.similarToAdd.value)))];
    }
    if Given(form.similarToRemove) {
      requests := requests + [RemoveSimilar(productId, CompileIds(form.similarToRemove.value))];
    }
    requests := requests + [PatchProduct(productId, AdminPatch(form))];
  }

  /** The removals only delete comments and remove images. */
  lemma RemovalKinds(form: EditForm)
    ensures forall q :: q in RemovalRequests(form) ==> q.DeleteComment? || q.RemoveImages?
    ensures forall c :: (DeleteComment(c) in RemovalRequests(form) <==> Given(form.commentsToRemove) && c in CompileIds(form.commentsToRemove.value))
  {
    if Given(form.commentsToRemove) {
      var ids := CompileIds(form.commentsToRemove.value);
      forall c ensures DeleteComment(c) in CommentDeletes(ids) <==> c in ids {
        if c in ids {
          var i :| 0 <= i < |ids| && ids[i] == c;
          assert CommentDeletes(ids)[i] == DeleteComment(c);
        }
      }
    }
  }

  /** Where a request of the run comes from. */
  lemma UpdateMember(productId: string, form: EditForm, current: Product, q: Request)
    requires q in UpdateRequests(productId, form, current)
    ensures q in RemovalRequests(form)
      || (!NewImagesThrow(form, current) && q in ImageRequests(productId, form, current))
      || (Completes(productId, form, current)
          && (q in ThumbnailRequests(productId, form, current)
              || q in SimilarRequests(productId, form) || q == PatchProduct(productId, AdminPatch(form))))
  {
  }

  /** A run that completes ends with the PATCH of the product; one that throws has sent only
      comment deletions and image removals; one refused by add-images ends with that empty
      request and sends no PATCH. */
  lemma UpdateRequestsEnd(productId: string, form: EditForm, current: Product)
    ensures Completes(productId, form, current) ==>
      var r := UpdateRequests(productId, form, current);
      r != [] && r[|r| - 1] == PatchProduct(productId, AdminPatch(form))
    ensures NewImagesThrow(form, current) ==>
      forall q :: q in UpdateRequests(productId, form, current) ==> q.DeleteComment? || q.RemoveImages?
    ensures NewImagesRejected(productId, form, current) ==>
      var r := UpdateRequests(productId, form, current);
      r != [] && r[|r| - 1] == AddImages(productId, [])
      && forall q :: q in r ==> q.DeleteComment? || q.RemoveImages? || q == AddImages(productId, [])
  {
    RemovalKinds(form);
    CompletesIffUrls(productId, form, current);
  }

  /** Comment `c` is deleted exactly when it is among the ids to remove. */
  lemma UpdateRequestsDeletes(productId: string, form: EditForm, current: Product)
    ensures forall c :: (DeleteComment(c) in UpdateRequests(productId, form, current)
      <==> Given(form.commentsToRemove) && c in CompileIds(form.commentsToRemove.value))
  {
    RemovalKinds(form);
    forall c | DeleteComment(c) in UpdateRequests(productId, form, current)
      ensures DeleteComment(c) in RemovalRequests(form)
    {
      UpdateMember(productId, form, current, DeleteComment(c));
    }
  }

  /** The thumbnail request is sent, with the form's main image, exactly when it is chosen and
      differs from the current thumbnail (and the run has not stopped before it). */
  lemma UpdateRequestsThumbnail(productId: string, form: EditForm, current: Product)
    ensures forall q :: q in UpdateRequests(productId, form, current) && q.UpdateThumbnail? ==> q == UpdateThumbnail(productId, form.mainImage)
    ensures UpdateThumbnail(productId, form.mainImage) in UpdateRequests(productId, form, current)
        <==> Completes(productId, form, current) && ThumbnailRequested(form, current)
  {
    RemovalKinds(form);
    forall q | q in UpdateRequests(productId, form, current) && q.UpdateThumbnail?
      ensures q == UpdateThumbnail(productId, form.mainImage) && Completes(productId, form, current) && ThumbnailRequested(form, current)
    {
      UpdateMember(productId, form, current, q);
    }
    if Completes(productId, form, current) && ThumbnailRequested(form, current) {
      var t := UpdateThumbnail(productId, form.mainImage);
      var rest := RestRequests(productId, form, current);
      assert rest[0] == t;
      assert t in LaterRequests(productId, form, current) by {
        assert LaterRequests(productId, form, current) == ImageRequests(productId, form, current) + rest;
      }
    }
  }

  /** The new images go to the edited product, in url order, and one is main only when the
      product has no thumbnail, and then it is the first. */
  lemma UpdateRequestsImages(productId: string, form: EditForm, current: Product)
    ensures forall q :: q in UpdateRequests(productId, form, current) && q.AddImages? ==>
      && q.productId == productId
      && |q.images| == |NewUrls(form)|
      && (forall i :: 0 <= i < |q.images| ==> q.images[i].url == NewUrls(form)[i])
      && (forall i :: 0 <= i < |q.images| ==> (q.images[i].main <==> i == 0 && current.thumbnail.None?))
  {
    RemovalKinds(form);
    forall q | q in UpdateRequests(productId, form, current) && q.AddImages?
      ensures q == AddImages(productId, NewImages(NewUrls(form), current.thumbnail.Some?))
    {
      UpdateMember(productId, form, current, q);
    }
  }

  /** The pairs sent to add-similar are those of the chosen ids, each from the edited
      product. */
  lemma UpdateRequestsSimilar(productId: string, form: EditForm, current: Product)
    ensures forall q :: q in UpdateRequests(productId, form, current) && q.AddSimilar? ==>
      Given(form.similarToAdd) && q.pairs == SimilarPairs(productId, CompileIds(form.similarToAdd.value))
  {
    RemovalKinds(form);
    forall q | q in UpdateRequests(productId, form, current) && q.AddSimilar?
      ensures Given(form.similarToAdd) && q.pairs == SimilarPairs(productId, CompileIds(form.similarToAdd.value))
    {
      UpdateMember(productId, form, current, q);
    }
  }

  // ---- getOtherProducts (lines 162-188) ----

  /** Product `p` is neither the edited product nor one of its similar products. */
  predicate Offered(productId: string, similar: seq<Product>, p: Product)
  {
    p.id != productId && forall s :: s in similar ==> s.id != p.id
  }

  /** Lines 177-178: an id is excluded iff it is the edited product's or a similar product's. */
  lemma ExcludeIdsMeaning(productId: string, similar: seq<Product>, excludeIds: seq<string>)
    requires excludeIds == seq(|similar|, i requires 0 <= i < |similar| => similar[i].id) + [productId]
    ensures forall p: Product :: p.id !in excludeIds <==> Offered(productId, similar, p)
  {
    forall p: Product ensures p.id in excludeIds <==> p.id == productId || exists s :: s in similar && s.id == p.id {
      if p.id in excludeIds && p.id != productId {
        var i :| 0 <= i < |excludeIds| && excludeIds[i] == p.id;
        assert similar[i] in similar;
      }
      if exists s :: s in similar && s.id == p.id {
        var s :| s in similar && s.id == p.id;
        var i :| 0 <= i < |similar| && similar[i] == s;
        assert excludeIds[i] == p.id;
      }
    }
  }

  /** The products offered as new similar ones: all products but the similar ones and the
      product itself, in their order and with their repetitions; `[]` when the similar answer
      is not an array. */
  method GetOtherProducts(productId: string, all: seq<Product>, similar: Option<seq<Product>>) returns (others: seq<Product>)
    ensures similar.None? ==> others == []
    ensures similar.Some? ==> IsSubsequence(others, all)
    ensures similar.Some? ==> forall p :: p in others <==>
      p in all && p.id != productId && forall s :: s in similar.value ==> s.id != p.id
    ensures similar.Some? ==> forall p :: multiset(others)[p] == if Offered(productId, similar.value, p) then multiset(all)[p] else 0
  {
    if similar.None? {
      return [];
    }
    var excludeIds := seq(|similar.value|, i requires 0 <= i < |similar.value| => similar.value[i].id);
    excludeIds := excludeIds + [productId];
    var excluded := (p: Product) => p.id !in excludeIds;
    others := Filter(all, excluded);
    ExcludeIdsMeaning(productId, similar.value, excludeIds);
    FilterIsSubsequence(all, excluded);
    FilterMembers(all, excluded);
    FilterMultiplicity(all, excluded);
  }
}
