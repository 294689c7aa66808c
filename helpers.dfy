/** The API's helpers (Shop.API/src/helpers.ts): comment validation, the e-mail based
    uniqueness test, attaching comments and images to products in place, and the builder of
    the search query. */
module Helpers {
  import opened Wrappers
  import opened Types
  import opened Seqs
  import opened Text
  import opened Http
  import opened Mapping
  import opened Queries

  // ================= validateComment =================

  /** A request body as `Object.entries` lists it: keys with their values, in order. */
  type Entries = seq<(string, JsValue)>

  const AbsentMessage := "Comment is absent or empty"
  const RequiredFields: seq<string> := ["name", "email", "body", "productId"]

  function FieldAbsent(field: string): string { "Field \"" + field + "\" is absent" }
  function FieldWrongType(key: string): string { "Field \"" + key + "\" has wrong type" }

  /** `field in comment`. */
  predicate HasKey(entries: Entries, key: string)
  {
    exists i :: 0 <= i < |entries| && entries[i].0 == key
  }

  /** The first of `fields` that is not a key of the body. */
  function FirstMissing(entries: Entries, fields: seq<string>): (r: Option<string>)
    ensures r.None? <==> forall k :: 0 <= k < |fields| ==> HasKey(entries, fields[k])
    ensures r.Some? ==> exists k :: 0 <= k < |fields| && fields[k] == r.value && !HasKey(entries, fields[k])
                                   && forall j :: 0 <= j < k ==> HasKey(entries, fields[j])
  {
    if fields == [] then None
    else if !HasKey(entries, fields[0]) then Some(fields[0])
    else
      var r := FirstMissing(entries, fields[1..]);
      assert forall k :: 1 <= k < |fields| ==> fields[k] == fields[1..][k - 1];
      r
  }

  /** The key of the first entry whose value is neither a string nor a number. */
  function FirstWrongType(entries: Entries): (r: Option<string>)
    ensures r.None? <==> forall k :: 0 <= k < |entries| ==> !entries[k].1.JsOther?
    ensures r.Some? ==> exists k :: 0 <= k < |entries| && entries[k].0 == r.value && entries[k].1.JsOther?
                                   && forall j :: 0 <= j < k ==> !entries[j].1.JsOther?
  {
    if entries == [] then None
    else if entries[0].1.JsOther? then Some(entries[0].0)
    else
      var r := FirstWrongType(entries[1..]);
      assert forall k :: 1 <= k < |entries| ==> entries[k] == entries[1..][k - 1];
      r
  }

  /** What `validateComment` answers: the first failed check in the order absent body,
      missing field (`name`, `email`, `body`, `productId`), wrongly typed value; else null. */
  function ValidationMessage(comment: Option<Entries>): Option<string>
  {
    if comment.None? then Some(AbsentMessage)
    else match FirstMissing(comment.value, RequiredFields)
      case Some(f) => Some(FieldAbsent(f))
      case None =>
        match FirstWrongType(comment.value)
        case Some(k) => Some(FieldWrongType(k))
        case None => None
  }

  /** A body passes validation exactly when it is present, has the four required keys and
      every value is a string or a number. */
  lemma ValidationPasses(comment: Option<Entries>)
    ensures ValidationMessage(comment) == None
        <==> comment.Some?
             && (forall k :: 0 <= k < |RequiredFields| ==> HasKey(comment.value, RequiredFields[k]))
             && (forall k :: 0 <= k < |comment.value| ==> !comment.value[k].1.JsOther?)
  {
  }

  /** `validateComment`, with its two loops and early returns. */
  method ValidateComment(comment: Option<Entries>) returns (r: Option<string>)
    ensures r == ValidationMessage(comment)
  {
    if comment.None? {
      return Some(AbsentMessage);
    }
    var entries := comment.value;
    for k := 0 to |RequiredFields|
      invariant FirstMissing(entries, RequiredFields) == FirstMissing(entries, RequiredFields[k..])
    {
      var field := RequiredFields[k];
      if !HasKey(entries, field) {
        return Some(FieldAbsent(field));
      }
      assert RequiredFields[k..][1..] == RequiredFields[k + 1..];
    }
    for k := 0 to |entries|
      invariant FirstMissing(entries, RequiredFields) == None
      invariant FirstWrongType(entries) == FirstWrongType(entries[k..])
    {
      var (key, value) := entries[k];
      if !value.JsString? && !value.JsNumber? {
        return Some(FieldWrongType(key));
      }
      assert entries[k..][1..] == entries[k + 1..];
    }
    return None;
  }

  // ================= checkCommentUniq =================

  /** `compareValues`: equal after lower-casing. */
  predicate SameText(a: string, b: string) { Lower(a) == Lower(b) }

  /** The comment `find` picks: the first one whose e-mail matches. */
  function FindByEmail(email: string, comments: seq<Comment>): Option<Comment>
  {
    if comments == [] then None
    else if SameText(email, comments[0].email) then Some(comments[0])
    else FindByEmail(email, comments[1..])
  }

  /** Body, name and product id all match (the e-mail having matched already). */
  predicate RestMatches(payload: CommentPayload, c: Comment)
  {
    SameText(payload.body, c.body) && SameText(payload.name, c.name) && SameText(payload.productId, c.productId)
  }

  /** `checkCommentUniq`: false exactly when the FIRST comment with a matching e-mail also
      matches in body, name and product id; later comments are never looked at. */
  function CheckCommentUniq(payload: CommentPayload, comments: seq<Comment>): (r: bool)
    ensures (forall i :: 0 <= i < |comments| ==> !SameText(payload.email, comments[i].email)) ==> r
    ensures !r <==> exists i :: 0 <= i < |comments| && SameText(payload.email, comments[i].email)
                               && (forall j :: 0 <= j < i ==> !SameText(payload.email, comments[j].email))
                               && RestMatches(payload, comments[i])
  {
    FindByEmailFirst(payload.email, comments);
    match FindByEmail(payload.email, comments)
    case None => true
    case Some(c) => !RestMatches(payload, c)
  }

  lemma {:induction false} FindByEmailFirst(email: string, comments: seq<Comment>)
    ensures FindByEmail(email, comments).None? <==> forall i :: 0 <= i < |comments| ==> !SameText(email, comments[i].email)
    ensures FindByEmail(email, comments).Some? ==>
      exists i :: 0 <= i < |comments| && comments[i] == FindByEmail(email, comments).value
                  && SameText(email, comments[i].email)
                  && forall j :: 0 <= j < i ==> !SameText(email, comments[j].email)
    ensures forall i, i' :: 0 <= i < |comments| && 0 <= i' < |comments|
                  && SameText(email, comments[i].email) && (forall j :: 0 <= j < i ==> !SameText(email, comments[j].email))
                  && SameText(email, comments[i'].email) && (forall j :: 0 <= j < i' ==> !SameText(email, comments[j].email))
                  ==> i == i'
  {
    if comments != [] {
      FindByEmailFirst(email, comments[1..]);
      assert forall k :: 1 <= k < |comments| ==> comments[k] == comments[1..][k - 1];
      if !SameText(email, comments[0].email) {
        var r := FindByEmail(email, comments);
        if r.Some? {
          var i :| 0 <= i < |comments[1..]| && comments[1..][i] == r.value && SameText(email, comments[1..][i].email)
                   && forall j :: 0 <= j < i ==> !SameText(email, comments[1..][j].email);
          assert comments[i + 1] == r.value;
        }
      }
    }
  }

  /** Only the first e-mail match is judged: an exact duplicate further down the list goes
      unnoticed when an earlier comment shares the e-mail but not the body. */
  lemma CheckCommentUniqJudgesFirstMatchOnly()
    ensures var p := CommentPayload("n", "e", "b", "p");
      CheckCommentUniq(p, [Comment("1", "n", "e", "other", "p"), Comment("2", "n", "e", "b", "p")])
  {
    var p := CommentPayload("n", "e", "b", "p");
    assert Lower("other") != Lower("b") by { assert |Lower("other")| == 5; }
    assert FindByEmail(p.email, [Comment("1", "n", "e", "other", "p"), Comment("2", "n", "e", "b", "p")]) == Some(Comment("1", "n", "e", "other", "p"));
  }

  // ================= enhanceProductsComments =================

  /** The comments of product `pid`: its rows, mapped, in row order. */
  function CommentsOf(rows: seq<CommentRow>, pid: string): seq<Comment>
  {
    MapComments(Filter(rows, CommentOfProduct(pid)))
  }

  /** Every comment attached to `pid` belongs to it, and every row of `pid` is attached. */
  lemma CommentsOfMembers(rows: seq<CommentRow>, pid: string)
    ensures forall c :: c in CommentsOf(rows, pid) ==> c.productId == pid && CommentToRow(c) in rows
    ensures forall i :: 0 <= i < |rows| && rows[i].productId == pid ==> MapComment(rows[i]) in CommentsOf(rows, pid)
    ensures CommentsOf(rows, pid) == [] <==> forall i :: 0 <= i < |rows| ==> rows[i].productId != pid
  {
    var f := Filter(rows, CommentOfProduct(pid));
    FilterMembers(rows, CommentOfProduct(pid));
    forall c | c in CommentsOf(rows, pid)
      ensures c.productId == pid && CommentToRow(c) in rows
    {
      var k :| 0 <= k < |f| && MapComments(f)[k] == c;
      MapCommentRoundTrip(f[k]);
    }
    forall i | 0 <= i < |rows| && rows[i].productId == pid
      ensures MapComment(rows[i]) in CommentsOf(rows, pid)
    {
      assert rows[i] in rows;
      var k :| 0 <= k < |f| && f[k] == rows[i];
      assert MapComments(f)[k] == MapComment(rows[i]);
    }
  }

  /** Adding one row at the end adds its comment at the end of its own product's list. */
  lemma CommentsOfSnoc(rows: seq<CommentRow>, row: CommentRow, pid: string)
    ensures CommentsOf(rows + [row], pid) == CommentsOf(rows, pid) + (if row.productId == pid then [MapComment(row)] else [])
  {
    FilterSnoc(rows, row, CommentOfProduct(pid));
    MapCommentsAppend(Filter(rows, CommentOfProduct(pid)), if row.productId == pid then [row] else []);
  }

  /** The product as `enhanceProductsComments` leaves it: with its comments when it has
      any, untouched otherwise. */
  function WithComments(p: Product, rows: seq<CommentRow>): Product
  {
    if CommentsOf(rows, p.id) != [] then p.(comments := Some(CommentsOf(rows, p.id))) else p
  }

  /** `enhanceProductsComments`: groups the rows by product id in a map, then sets
      `comments` on each product that has rows; returns the same array. */
  method EnhanceProductsComments(products: array<Product>, commentRows: seq<CommentRow>) returns (r: array<Product>)
    modifies products
    ensures r == products
    ensures forall k :: 0 <= k < products.Length ==> products[k] == WithComments(old(products[k]), commentRows)
  {
    var byProduct := GroupComments(commentRows);
    var j := 0;
    while j < products.Length
      invariant 0 <= j <= products.Length
      invariant forall k :: 0 <= k < j ==> products[k] == WithComments(old(products[k]), commentRows)
      invariant forall k :: j <= k < products.Length ==> products[k] == old(products[k])
    {
      if products[j].id in byProduct {
        assert Lookup(byProduct, products[j].id).Some?;
        products[j] := products[j].(comments := Some(byProduct[products[j].id]));
      }
      j := j + 1;
    }
    return products;
  }

  /** The map `enhanceProductsComments` builds, as it stands after `rows`. */
  ghost predicate GroupedComments(rows: seq<CommentRow>, byProduct: map<string, seq<Comment>>)
  {
    forall pid :: Lookup(byProduct, pid) == NonEmpty(CommentsOf(rows, pid))
  }

  lemma GroupCommentsStep(rows: seq<CommentRow>, row: CommentRow, byProduct: map<string, seq<Comment>>)
    requires GroupedComments(rows, byProduct)
    ensures var comment := MapComment(row);
      GroupedComments(rows + [row],
                      byProduct[comment.productId := (if comment.productId in byProduct then byProduct[comment.productId] else []) + [comment]])
  {
    var comment := MapComment(row);
    var id := comment.productId;
    var byProduct' := byProduct[id := (if id in byProduct then byProduct[id] else []) + [comment]];
    forall pid
      ensures Lookup(byProduct', pid) == NonEmpty(CommentsOf(rows + [row], pid))
    {
      CommentsOfSnoc(rows, row, pid);
      assert Lookup(byProduct, pid) == NonEmpty(CommentsOf(rows, pid));
      if pid == id {
        assert row.productId == id;
        assert (if id in byProduct then byProduct[id] else []) == CommentsOf(rows, id);
      } else {
        assert CommentsOf(rows, pid) + [] == CommentsOf(rows, pid);
        assert Lookup(byProduct', pid) == Lookup(byProduct, pid);
      }
    }
  }

  /** The first loop of `enhanceProductsComments`: product id to its comments, for the
      products that have rows. */
  method GroupComments(commentRows: seq<CommentRow>) returns (byProduct: map<string, seq<Comment>>)
    ensures forall pid :: Lookup(byProduct, pid) == NonEmpty(CommentsOf(commentRows, pid))
  {
    byProduct := map[];
    var i := 0;
    while i < |commentRows|
      invariant 0 <= i <= |commentRows|
      invariant GroupedComments(commentRows[..i], byProduct)
    {
      var comment := MapComment(commentRows[i]);
      assert commentRows[..i + 1] == commentRows[..i] + [commentRows[i]];
      GroupCommentsStep(commentRows[..i], commentRows[i], byProduct);
      var current := if comment.productId in byProduct then byProduct[comment.productId] else [];
      byProduct := byProduct[comment.productId := current + [comment]];
      i := i + 1;
    }
    assert commentRows[..i] == commentRows;
  }

  /** A list, or nothing when it is empty (a map entry only exists once something was pushed). */
  function NonEmpty<T>(s: seq<T>): Option<seq<T>>
  {
    if s == [] then None else Some(s)
  }

  /** `map.get(k)`: the value stored under `k`, if any. */
  function Lookup<K, V>(m: map<K, V>, k: K): (r: Option<V>)
    ensures r.Some? <==> k in m
    ensures r.Some? ==> r.value == m[k]
  {
    if k in m then Some(m[k]) else None
  }

  // ================= getProductsFilterQuery =================

  /** One condition of the search query, with the value it binds. */
  datatype Clause = TitleLike(title: string) | DescriptionLike(description: string) | PriceBetween(from: int, to: int)

  /** A bound parameter of a query. */
  datatype SqlValue = SqlText(text: string) | SqlNumber(number: int)

  const SearchPrefix := "SELECT * FROM products WHERE "
  const TitleCondition := "title LIKE ? "
  const DescriptionCondition := "description LIKE ? "
  const PriceCondition := "(price > ? AND price < ?)"
  const OrSeparator := " OR "
  const PriceCeiling := 999999

  /** The LIKE pattern for a substring: `%text%`. */
  function LikePattern(t: string): string { "%" + t + "%" }

  predicate TruthyNumber(n: Option<int>) { n.Some? && n.value != 0 }

  /** `n || d` for an optional number. */
  function NumberOr(n: Option<int>, d: int): int { if TruthyNumber(n) then n.value else d }

  /** The conditions a filter asks for, in the order the builder emits them. */
  function FilterClauses(f: SearchFilter): seq<Clause>
  {
    (if Truthy(f.title) then [TitleLike(f.title.value)] else [])
    + (if Truthy(f.description) then [DescriptionLike(f.description.value)] else [])
    + (if TruthyNumber(f.priceFrom) || TruthyNumber(f.priceTo)
       then [PriceBetween(NumberOr(f.priceFrom, 0), NumberOr(f.priceTo, PriceCeiling))] else [])
  }

  function ClauseText(c: Clause): string
  {
    match c
    case TitleLike(_) => TitleCondition
    case DescriptionLike(_) => DescriptionCondition
    case PriceBetween(_, _) => PriceCondition
  }

  function ClauseValues(c: Clause): seq<SqlValue>
  {
    match c
    case TitleLike(t) => [SqlText(LikePattern(t))]
    case DescriptionLike(d) => [SqlText(LikePattern(d))]
    case PriceBetween(a, b) => [SqlNumber(a), SqlNumber(b)]
  }

  /** The clause texts separated by `" OR "`. */
  function JoinedWithOr(cs: seq<Clause>): string
  {
    if cs == [] then ""
    else if |cs| == 1 then ClauseText(cs[0])
    else JoinedWithOr(cs[..|cs| - 1]) + OrSeparator + ClauseText(cs[|cs| - 1])
  }

  function AllValues(cs: seq<Clause>): seq<SqlValue>
  {
    if cs == [] then [] else AllValues(cs[..|cs| - 1]) + ClauseValues(cs[|cs| - 1])
  }

  /** `getProductsFilterQuery`: appends one clause per truthy field, joining with `" OR "`
      whenever a value has already been pushed. */
  method GetProductsFilterQuery(f: SearchFilter) returns (query: string, values: seq<SqlValue>)
    ensures query == SearchPrefix + JoinedWithOr(FilterClauses(f))
    ensures values == AllValues(FilterClauses(f))
  {
    ghost var cs: seq<Clause> := [];
    query := SearchPrefix;
    values := [];
    if Truthy(f.title) {
      AppendClause(query, values, cs, TitleLike(f.title.value));
      query := query + TitleCondition;
      values := values + [SqlText(LikePattern(f.title.value))];
      cs := cs + [TitleLike(f.title.value)];
    }
    if Truthy(f.description) {
      AppendClause(query, values, cs, DescriptionLike(f.description.value));
      if |values| > 0 {
        query := query + OrSeparator;
      }
      query := query + DescriptionCondition;
      values := values + [SqlText(LikePattern(f.description.value))];
      cs := cs + [DescriptionLike(f.description.value)];
    }
    if TruthyNumber(f.priceFrom) || TruthyNumber(f.priceTo) {
      var from := NumberOr(f.priceFrom, 0);
      var to := NumberOr(f.priceTo, PriceCeiling);
      AppendClause(query, values, cs, PriceBetween(from, to));
      if |values| > 0 {
        query := query + OrSeparator;
      }
      query := query + PriceCondition;
      values := values + [SqlNumber(from)];
      values := values + [SqlNumber(to)];
      cs := cs + [PriceBetween(from, to)];
    }
    assert cs == FilterClauses(f);
  }

  /** One more clause: its text after `" OR "` unless it is the first, its values after the others. */
  lemma AppendClause(query: string, values: seq<SqlValue>, cs: seq<Clause>, c: Clause)
    requires query == SearchPrefix + JoinedWithOr(cs) && values == AllValues(cs)
    ensures |values| > 0 <==> cs != []
    ensures (if |values| > 0 then query + OrSeparator else query) + ClauseText(c) == SearchPrefix + JoinedWithOr(cs + [c])
    ensures values + ClauseValues(c) == AllValues(cs + [c])
  {
    assert (cs + [c])[..|cs|] == cs;
    if cs != [] {
      assert |AllValues(cs)| >= |ClauseValues(cs[|cs| - 1])| > 0;
      assert JoinedWithOr(cs + [c]) == JoinedWithOr(cs) + OrSeparator + ClauseText(c);
      AppendAssoc(SearchPrefix, JoinedWithOr(cs), OrSeparator);
      AppendAssoc(SearchPrefix, JoinedWithOr(cs) + OrSeparator, ClauseText(c));
    } else {
      assert JoinedWithOr(cs + [c]) == ClauseText(c);
    }
  }

  lemma {:induction false} PlaceholdersMatchValues(cs: seq<Clause>)
    ensures CountChar(JoinedWithOr(cs), '?') == |AllValues(cs)|
  {
    if |cs| == 1 {
      ClausePlaceholders(cs[0]);
      assert AllValues(cs) == AllValues([]) + ClauseValues(cs[0]) by { assert cs[..0] == []; }
    } else if |cs| > 1 {
      var init, last := cs[..|cs| - 1], cs[|cs| - 1];
      PlaceholdersMatchValues(init);
      ClausePlaceholders(last);
      var j := JoinedWithOr(init);
      assert JoinedWithOr(cs) == j + OrSeparator + ClauseText(last);
      assert AllValues(cs) == AllValues(init) + ClauseValues(last);
      CountCharAppend(j + OrSeparator, ClauseText(last), '?');
      CountCharAppend(j, OrSeparator, '?');
      CountCharAbsent(OrSeparator, '?');
    }
  }

  lemma ClausePlaceholders(c: Clause)
    ensures CountChar(ClauseText(c), '?') == |ClauseValues(c)|
  {
    match c
    case TitleLike(_) => CountOnceAt(TitleCondition, '?', 11);
    case DescriptionLike(_) => CountOnceAt(DescriptionCondition, '?', 17);
    case PriceBetween(_, _) => CountTwiceAt(PriceCondition, '?', 9, 23);
  }

  /** The query holds one `?` per bound value. */
  lemma FilterQueryPlaceholders(f: SearchFilter)
    ensures CountChar(SearchPrefix + JoinedWithOr(FilterClauses(f)), '?') == |AllValues(FilterClauses(f))|
  {
    QueryPlaceholders(FilterClauses(f));
  }

  lemma QueryPlaceholders(cs: seq<Clause>)
    ensures CountChar(SearchPrefix + JoinedWithOr(cs), '?') == |AllValues(cs)|
  {
    PlaceholdersMatchValues(cs);
    CountCharAppend(SearchPrefix, JoinedWithOr(cs), '?');
    PrefixHasNoMark();
  }

  lemma PrefixHasNoMark()
    ensures CountChar(SearchPrefix, '?') == 0
  {
    CountCharAbsent(SearchPrefix, '?');
  }

  /** The values, in order: `%title%`, `%description%`, then `priceFrom || 0` and
      `priceTo || 999999`, each present only when its field is truthy; the price pair is
      there when either bound is (so a bound of 0 counts as absent). */
  lemma FilterQueryValues(f: SearchFilter)
    ensures AllValues(FilterClauses(f))
      == (if Truthy(f.title) then [SqlText(LikePattern(f.title.value))] else [])
       + (if Truthy(f.description) then [SqlText(LikePattern(f.description.value))] else [])
       + (if TruthyNumber(f.priceFrom) || TruthyNumber(f.priceTo)
          then [SqlNumber(NumberOr(f.priceFrom, 0)), SqlNumber(NumberOr(f.priceTo, PriceCeiling))] else [])
  {
    var cs := FilterClauses(f);
    AllValuesAppendAll(cs);
  }

  lemma {:induction false} AllValuesAppendAll(cs: seq<Clause>)
    ensures |cs| <= 3 ==> (AllValues(cs) == (if |cs| > 0 then ClauseValues(cs[0]) else [])
      + (if |cs| > 1 then ClauseValues(cs[1]) else []) + (if |cs| > 2 then ClauseValues(cs[2]) else []))
  {
    if 0 < |cs| <= 3 {
      AllValuesAppendAll(cs[..|cs| - 1]);
    }
  }

  /** An empty filter leaves the `WHERE` dangling and binds nothing. */
  lemma EmptyFilterQuery(f: SearchFilter)
    requires !Truthy(f.title) && !Truthy(f.description) && !TruthyNumber(f.priceFrom) && !TruthyNumber(f.priceTo)
    ensures SearchPrefix + JoinedWithOr(FilterClauses(f)) == "SELECT * FROM products WHERE "
    ensures AllValues(FilterClauses(f)) == []
  {
  }

  /** What a products row must satisfy for a clause (LIKE read as substring search; a NULL
      column satisfies nothing). */
  predicate ClauseHolds(c: Clause, row: ProductRow)
  {
    match c
    case TitleLike(t) => row.title.Some? && Contains(row.title.value, t)
    case DescriptionLike(d) => row.description.Some? && Contains(row.description.value, d)
    case PriceBetween(a, b) => row.price.Amount? && a < row.price.value < b
  }

  /** The rows the built query selects: those satisfying ANY of its clauses. */
  predicate QueryMatches(cs: seq<Clause>, row: ProductRow)
  {
    exists k :: 0 <= k < |cs| && ClauseHolds(cs[k], row)
  }

  /** Because of the OR, a field narrows nothing: a row is selected as soon as one truthy
      field matches it, whatever the others say. Both price bounds are strict. */
  lemma SearchMatchesAnyField(f: SearchFilter, row: ProductRow)
    ensures QueryMatches(FilterClauses(f), row)
      <==> ((Truthy(f.title) && row.title.Some? && Contains(row.title.value, f.title.value))
        || (Truthy(f.description) && row.description.Some? && Contains(row.description.value, f.description.value))
        || ((TruthyNumber(f.priceFrom) || TruthyNumber(f.priceTo))
            && row.price.Amount? && NumberOr(f.priceFrom, 0) < row.price.value < NumberOr(f.priceTo, PriceCeiling)))
  {
    var cs := FilterClauses(f);
    var t := if Truthy(f.title) then [TitleLike(f.title.value)] else [];
    var d := if Truthy(f.description) then [DescriptionLike(f.description.value)] else [];
    var p := if TruthyNumber(f.priceFrom) || TruthyNumber(f.priceTo)
             then [PriceBetween(NumberOr(f.priceFrom, 0), NumberOr(f.priceTo, PriceCeiling))] else [];
    assert cs == t + d + p;
    if QueryMatches(cs, row) {
      var k :| 0 <= k < |cs| && ClauseHolds(cs[k], row);
      assert cs[k] in t || cs[k] in d || cs[k] in p;
    }
    if Truthy(f.title) && row.title.Some? && Contains(row.title.value, f.title.value) {
      assert ClauseHolds(cs[0], row);
    }
    if Truthy(f.description) && row.description.Some? && Contains(row.description.value, f.description.value) {
      assert ClauseHolds(cs[|t|], row);
    }
    if p != [] && row.price.Amount? && NumberOr(f.priceFrom, 0) < row.price.value < NumberOr(f.priceTo, PriceCeiling) {
      assert ClauseHolds(cs[|t| + |d|], row);
    }
  }

  // ================= enhanceProductsImages =================

  /** The images of product `pid`: its rows, mapped, in row order. */
  function ImagesOf(rows: seq<ImageRow>, pid: string): seq<Image>
  {
    MapImages(Filter(rows, ImageOfProduct(pid)))
  }

  lemma ImagesOfBelong(rows: seq<ImageRow>, pid: string)
    ensures forall img :: img in ImagesOf(rows, pid) ==> img.productId == pid
    ensures ImagesOf(rows, pid) == [] <==> forall i :: 0 <= i < |rows| ==> rows[i].productId != pid
  {
    var f := Filter(rows, ImageOfProduct(pid));
    FilterMembers(rows, ImageOfProduct(pid));
    forall img | img in ImagesOf(rows, pid)
      ensures img.productId == pid
    {
      var k :| 0 <= k < |f| && MapImages(f)[k] == img;
    }
    forall i | 0 <= i < |rows| && rows[i].productId == pid
      ensures ImagesOf(rows, pid) != []
    {
      assert rows[i] in rows;
    }
  }

  lemma ImagesOfSnoc(rows: seq<ImageRow>, row: ImageRow, pid: string)
    ensures ImagesOf(rows + [row], pid) == ImagesOf(rows, pid) + (if row.productId == pid then [MapImage(row)] else [])
  {
    FilterSnoc(rows, row, ImageOfProduct(pid));
    MapImagesAppend(Filter(rows, ImageOfProduct(pid)), if row.productId == pid then [row] else []);
  }

  /** The last image flagged main: what `Map.set` leaves after overwriting in row order. */
  function LastMain(imgs: seq<Image>): Option<Image>
  {
    if imgs == [] then None
    else if imgs[|imgs| - 1].main then Some(imgs[|imgs| - 1])
    else LastMain(imgs[..|imgs| - 1])
  }

  /** `LastMain` finds a main image exactly when there is one, and nothing after it is main. */
  lemma {:induction false} LastMainIsLast(imgs: seq<Image>)
    ensures LastMain(imgs).None? <==> forall i :: 0 <= i < |imgs| ==> !imgs[i].main
    ensures LastMain(imgs).Some? ==>
      exists i :: 0 <= i < |imgs| && imgs[i] == LastMain(imgs).value && imgs[i].main
                  && forall j :: i < j < |imgs| ==> !imgs[j].main
  {
    if imgs != [] && !imgs[|imgs| - 1].main {
      var init := imgs[..|imgs| - 1];
      LastMainIsLast(init);
      if LastMain(init).Some? {
        var i :| 0 <= i < |init| && init[i] == LastMain(init).value && init[i].main
                 && forall j :: i < j < |init| ==> !init[j].main;
        assert imgs[i] == init[i];
      }
    }
  }

  /** The list-view thumbnail: the last main image, else the first image, else none. */
  function ListThumbnail(imgs: seq<Image>): Option<Image>
  {
    match LastMain(imgs)
    case Some(t) => Some(t)
    case None => if imgs != [] then Some(imgs[0]) else None
  }

  /** The product as `enhanceProductsImages` leaves it: its thumbnail is always recomputed
      (so an old one is cleared), its images are set only when it has rows. */
  function WithImages(p: Product, rows: seq<ImageRow>): Product
  {
    var imgs := ImagesOf(rows, p.id);
    p.(thumbnail := ListThumbnail(imgs), images := if imgs != [] then Some(imgs) else p.images)
  }

  /** The thumbnail rule of the list view: the last main image of the product in row order,
      else its first image, else none; a thumbnail, when set, is one of the attached images. */
  lemma WithImagesThumbnail(p: Product, rows: seq<ImageRow>)
    ensures var q := WithImages(p, rows); var imgs := ImagesOf(rows, p.id);
      && (q.thumbnail.None? <==> imgs == [])
      && (q.thumbnail.Some? ==> q.images == Some(imgs) && q.thumbnail.value in imgs && q.thumbnail.value.productId == p.id)
      && ((exists i :: 0 <= i < |imgs| && imgs[i].main) ==>
            q.thumbnail.Some? && q.thumbnail.value.main
            && exists i :: 0 <= i < |imgs| && imgs[i] == q.thumbnail.value && forall j :: i < j < |imgs| ==> !imgs[j].main)
      && ((forall i :: 0 <= i < |imgs| ==> !imgs[i].main) && imgs != [] ==> q.thumbnail == Some(imgs[0]))
  {
    ImagesOfBelong(rows, p.id);
    LastMainIsLast(ImagesOf(rows, p.id));
  }

  lemma LastMainSnoc(imgs: seq<Image>, img: Image)
    ensures LastMain(imgs + [img]) == if img.main then Some(img) else LastMain(imgs)
  {
    assert (imgs + [img])[..|imgs|] == imgs;
  }

  /** `enhanceProductsImages`: groups rows by product id and remembers the last main image
      of each, then sets thumbnail (falling back to the first image) and images in place. */
  method EnhanceProductsImages(products: array<Product>, imageRows: seq<ImageRow>) returns (r: array<Product>)
    modifies products
    ensures r == products
    ensures forall k :: 0 <= k < products.Length ==> products[k] == WithImages(old(products[k]), imageRows)
  {
    var imagesBy, thumbnailsBy := GroupImages(imageRows);
    var j := 0;
    while j < products.Length
      invariant 0 <= j <= products.Length
      invariant forall k :: 0 <= k < j ==> products[k] == WithImages(old(products[k]), imageRows)
      invariant forall k :: j <= k < products.Length ==> products[k] == old(products[k])
    {
      var id := products[j].id;
      products[j] := products[j].(thumbnail := Lookup(thumbnailsBy, id));
      if id in imagesBy {
        assert Lookup(imagesBy, id).Some?;
        products[j] := products[j].(images := Some(imagesBy[id]));
        if |products[j].images.value| > 0 && products[j].thumbnail.None? {
          products[j] := products[j].(thumbnail := Some(products[j].images.value[0]));
        }
      }
      j := j + 1;
    }
    return products;
  }

  /** The two maps `enhanceProductsImages` builds, as they stand after `rows`. */
  ghost predicate GroupedImages(rows: seq<ImageRow>, imagesBy: map<string, seq<Image>>, thumbnailsBy: map<string, Image>)
  {
    forall pid :: Lookup(imagesBy, pid) == NonEmpty(ImagesOf(rows, pid))
               && Lookup(thumbnailsBy, pid) == LastMain(ImagesOf(rows, pid))
  }



  lemma GroupImagesStep(rows: seq<ImageRow>, row: ImageRow,
                        imagesBy: map<string, seq<Image>>, thumbnailsBy: map<string, Image>)
    requires GroupedImages(rows, imagesBy, thumbnailsBy)
    ensures var image := MapImage(row);
      GroupedImages(rows + [row],
                    imagesBy[image.productId := (if image.productId in imagesBy then imagesBy[image.productId] else []) + [image]],
                    if image.main then thumbnailsBy[image.productId := image] else thumbnailsBy)
  {
    var image := MapImage(row);
    var id := image.productId;
    var imagesBy' := imagesBy[id := (if id in imagesBy then imagesBy[id] else []) + [image]];
    var thumbnailsBy' := if image.main then thumbnailsBy[id := image] else thumbnailsBy;
    forall pid
      ensures Lookup(imagesBy', pid) == NonEmpty(ImagesOf(rows + [row], pid))
      ensures Lookup(thumbnailsBy', pid) == LastMain(ImagesOf(rows + [row], pid))
    {
      ImagesOfSnoc(rows, row, pid);
      assert Lookup(imagesBy, pid) == NonEmpty(ImagesOf(rows, pid));
      assert Lookup(thumbnailsBy, pid) == LastMain(ImagesOf(rows, pid));
      if pid == id {
        assert row.productId == id;
        assert (if id in imagesBy then imagesBy[id] else []) == ImagesOf(rows, id);
        LastMainSnoc(ImagesOf(rows, pid), image);
      } else {
        assert ImagesOf(rows, pid) + [] == ImagesOf(rows, pid);
        assert Lookup(imagesBy', pid) == Lookup(imagesBy, pid);
        assert Lookup(thumbnailsBy', pid) == Lookup(thumbnailsBy, pid);
      }
    }
  }

  /** The first loop of `enhanceProductsImages`: product id to its images, and to the last
      of them flagged main. */
  method GroupImages(imageRows: seq<ImageRow>) returns (imagesBy: map<string, seq<Image>>, thumbnailsBy: map<string, Image>)
    ensures forall pid :: Lookup(imagesBy, pid) == NonEmpty(ImagesOf(imageRows, pid))
    ensures forall pid :: Lookup(thumbnailsBy, pid) == LastMain(ImagesOf(imageRows, pid))
  {
    imagesBy := map[];
    thumbnailsBy := map[];
    var i := 0;
    while i < |imageRows|
      invariant 0 <= i <= |imageRows|
      invariant GroupedImages(imageRows[..i], imagesBy, thumbnailsBy)
    {
      var image := MapImage(imageRows[i]);
      assert imageRows[..i + 1] == imageRows[..i] + [imageRows[i]];
      GroupImagesStep(imageRows[..i], imageRows[i], imagesBy, thumbnailsBy);
      var current := if image.productId in imagesBy then imagesBy[image.productId] else [];
      imagesBy := imagesBy[image.productId := current + [image]];
      if image.main {
        thumbnailsBy := thumbnailsBy[image.productId := image];
      }
      i := i + 1;
    }
    assert imageRows[..i] == imageRows;
  }
}
