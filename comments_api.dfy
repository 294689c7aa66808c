/** The comment routes of the API (Shop.API/src/api/comments-api.ts) over the shared tables. */
module CommentsApi {
  import opened Wrappers
  import opened Types
  import opened Seqs
  import opened Text
  import opened Http
  import opened Mapping
  import opened Queries
  import opened Helpers
  import opened Storage

  const CommentIdNotUuid := "Comment id is not UUID"
  const DuplicateComment := "Comment with the same fields already exists"
  const MissingId := "Missing 'id' property in request body"
  const PatchFailed := "Server error"

  function CommentNotFound(id: string): string { "Comment with id " + id + " is not found" }

  // ---- POST: reading the body ----

  /** The value stored under `key` in a body (a parsed body has each key once). */
  function ValueOf(entries: Entries, key: string): (r: Option<JsValue>)
    ensures r.None? <==> !HasKey(entries, key)
    ensures r.Some? ==> (key, r.value) in entries
  {
    if entries == [] then None
    else if entries[0].0 == key then Some(entries[0].1)
    else
      var r := ValueOf(entries[1..], key);
      assert forall k :: 1 <= k < |entries| ==> entries[k] == entries[1..][k - 1];
      r
  }

  /** The fields as the handler uses them. `toLowerCase` is called on name, email and body,
      so each must be a string; `productId` is bound as it is, a number being compared and
      stored as its decimal text. `None` is a body on which the handler throws. */
  function PayloadOf(entries: Entries): Option<CommentPayload>
  {
    match (ValueOf(entries, "name"), ValueOf(entries, "email"), ValueOf(entries, "body"), ValueOf(entries, "productId"))
    case (Some(JsString(n)), Some(JsString(e)), Some(JsString(b)), Some(JsString(p))) => Some(CommentPayload(n, e, b, p))
    case (Some(JsString(n)), Some(JsString(e)), Some(JsString(b)), Some(JsNumber(p))) => Some(CommentPayload(n, e, b, NumberText(p)))
    case _ => None
  }

  /** The body holds a number under `key`. */
  predicate NumberAt(entries: Entries, key: string)
  {
    ValueOf(entries, key).Some? && ValueOf(entries, key).value.JsNumber?
  }

  /** A body that passed `validateComment` makes the handler throw exactly when its name,
      e-mail or body is a number. */
  lemma PayloadNeedsTexts(entries: Entries)
    requires ValidationMessage(Some(entries)) == None
    ensures PayloadOf(entries).None? <==> NumberAt(entries, "name") || NumberAt(entries, "email") || NumberAt(entries, "body")
  {
    ValidationPasses(Some(entries));
    assert HasKey(entries, RequiredFields[0]) && HasKey(entries, RequiredFields[1]);
    assert HasKey(entries, RequiredFields[2]) && HasKey(entries, RequiredFields[3]);
    var n, e, b, p := ValueOf(entries, "name"), ValueOf(entries, "email"), ValueOf(entries, "body"), ValueOf(entries, "productId");
    assert !n.value.JsOther? && !e.value.JsOther? && !b.value.JsOther? && !p.value.JsOther? by {
      var i :| 0 <= i < |entries| && entries[i] == ("name", n.value);
      var j :| 0 <= j < |entries| && entries[j] == ("email", e.value);
      var k :| 0 <= k < |entries| && entries[k] == ("body", b.value);
      var l :| 0 <= l < |entries| && entries[l] == ("productId", p.value);
    }
  }

  /** The `WHERE` of the duplicate query: e-mail, name and body equal after lower-casing, and
      the same product. */
  function SameCommentAs(c: CommentPayload): CommentRow -> bool
  {
    (row: CommentRow) => Lower(row.email) == Lower(c.email) && Lower(row.name) == Lower(c.name)
                         && Lower(row.body) == Lower(c.body) && row.productId == c.productId
  }

  /** The duplicate test is per product: a stored comment with the same texts under another
      product never blocks a new one, whatever the case of its texts. */
  lemma DuplicateIsPerProduct(comments: seq<CommentRow>, c: CommentPayload)
    requires forall i :: 0 <= i < |comments| ==> comments[i].productId != c.productId
    ensures Filter(comments, SameCommentAs(c)) == []
  {
    if Filter(comments, SameCommentAs(c)) != [] {
      var row := Filter(comments, SameCommentAs(c))[0];
      FilterMembers(comments, SameCommentAs(c));
      assert false;
    }
  }

  // ---- PATCH: the statement builder ----

  /** A PATCH body: `id` and the editable fields, each present or not. */
  datatype CommentPatch = CommentPatch(id: Option<string>, name: Option<string>, body: Option<string>, email: Option<string>)

  /** The fields the builder visits, in its order. */
  const EditableFields: seq<string> := ["name", "body", "email"]

  const UpdatePrefix := "UPDATE comments SET "
  const WhereCommentId := " WHERE comment_id = ?"
  const AssignSuffix := " = ?"
  const FieldSeparator := ", "

  /** `req.body[field]` when the body has the key. */
  function FieldOf(patch: CommentPatch, field: string): Option<string>
  {
    if field == "name" then patch.name
    else if field == "body" then patch.body
    else if field == "email" then patch.email
    else None
  }

  /** The present fields among the first `k` editable ones with their values, in list order. */
  function Assignments(patch: CommentPatch, k: nat): seq<(string, string)>
    requires k <= |EditableFields|
  {
    if k == 0 then []
    else Assignments(patch, k - 1)
         + (match FieldOf(patch, EditableFields[k - 1])
            case Some(v) => [(EditableFields[k - 1], v)]
            case None => [])
  }

  /** All three fields visited. */
  function AllAssignments(patch: CommentPatch): seq<(string, string)>
  {
    Assignments(patch, |EditableFields|)
  }

  /** The SET list holds name, then body, then email, each only when its key is present. */
  lemma AssignmentsInOrder(patch: CommentPatch)
    ensures AllAssignments(patch)
      == (if patch.name.Some? then [("name", patch.name.value)] else [])
       + (if patch.body.Some? then [("body", patch.body.value)] else [])
       + (if patch.email.Some? then [("email", patch.email.value)] else [])
  {
    assert EditableFields[0] == "name" && EditableFields[1] == "body" && EditableFields[2] == "email";
    assert Assignments(patch, 1) == [] + (if patch.name.Some? then [("name", patch.name.value)] else []);
    assert Assignments(patch, 2) == Assignments(patch, 1) + (if patch.body.Some? then [("body", patch.body.value)] else []);
    assert Assignments(patch, 3) == Assignments(patch, 2) + (if patch.email.Some? then [("email", patch.email.value)] else []);
  }

  function Fields(a: seq<(string, string)>): (r: seq<string>)
    ensures |r| == |a| && forall i :: 0 <= i < |a| ==> r[i] == a[i].0
  {
    seq(|a|, i requires 0 <= i < |a| => a[i].0)
  }

  function Values(a: seq<(string, string)>): (r: seq<string>)
    ensures |r| == |a| && forall i :: 0 <= i < |a| ==> r[i] == a[i].1
  {
    seq(|a|, i requires 0 <= i < |a| => a[i].1)
  }

  /** `${field} = ?`. */
  function Assign(field: string): string { field + AssignSuffix }

  /** The assignments separated by `", "`. */
  function SetClause(fields: seq<string>): string
  {
    if fields == [] then ""
    else if |fields| == 1 then Assign(fields[0])
    else SetClause(fields[..|fields| - 1]) + FieldSeparator + Assign(fields[|fields| - 1])
  }

  /** The PATCH builder (lines 153-168): one `field = ?` per present key, `", "` between
      them, the values in the same order, then the `WHERE` with the id bound last. */
  method BuildCommentUpdate(patch: CommentPatch, id: string) returns (query: string, values: seq<string>)
    ensures query == UpdatePrefix + SetClause(Fields(AllAssignments(patch))) + WhereCommentId
    ensures values == Values(AllAssignments(patch)) + [id]
  {
    query := UpdatePrefix;
    values := [];
    for k := 0 to |EditableFields|
      invariant Built(patch, k, query, values)
    {
      var field := EditableFields[k];
      var given := FieldOf(patch, field);
      var q, v := query, values;
      if given.Some? {
        if |values| > 0 {
          q := q + FieldSeparator;
        }
        q := q + Assign(field);
        v := v + [given.value];
      }
      BuildStep(patch, k, query, values, q, v);
      query, values := q, v;
    }
    query := query + WhereCommentId;
    values := values + [id];
  }

  /** The builder's state after visiting the first `k` editable fields. */
  ghost predicate Built(patch: CommentPatch, k: nat, query: string, values: seq<string>)
    requires k <= |EditableFields|
  {
    query == UpdatePrefix + SetClause(Fields(Assignments(patch, k))) && values == Values(Assignments(patch, k))
  }

  /** One visit: a present field is added after `", "` unless it is the first, an absent one
      changes nothing. */
  lemma BuildStep(patch: CommentPatch, k: nat, query: string, values: seq<string>, query': string, values': seq<string>)
    requires k < |EditableFields| && Built(patch, k, query, values)
    requires FieldOf(patch, EditableFields[k]).None? ==> query' == query && values' == values
    requires FieldOf(patch, EditableFields[k]).Some? ==>
      && query' == (if |values| > 0 then query + FieldSeparator else query) + Assign(EditableFields[k])
      && values' == values + [FieldOf(patch, EditableFields[k]).value]
    ensures Built(patch, k + 1, query', values')
  {
    var given := FieldOf(patch, EditableFields[k]);
    if given.Some? {
      assert Assignments(patch, k + 1) == Assignments(patch, k) + [(EditableFields[k], given.value)];
      AppendAssignment(query, values, Assignments(patch, k), EditableFields[k], given.value);
    } else {
      assert Assignments(patch, k + 1) == Assignments(patch, k);
    }
  }

  /** One more assignment: after `", "` unless it is the first, its value after the others. */
  lemma AppendAssignment(query: string, values: seq<string>, a: seq<(string, string)>, field: string, v: string)
    requires query == UpdatePrefix + SetClause(Fields(a)) && values == Values(a)
    ensures |values| > 0 <==> a != []
    ensures (if |values| > 0 then query + FieldSeparator else query) + Assign(field) == UpdatePrefix + SetClause(Fields(a + [(field, v)]))
    ensures values + [v] == Values(a + [(field, v)])
  {
    var fs := Fields(a + [(field, v)]);
    assert fs == Fields(a) + [field];
    assert fs[..|a|] == Fields(a);
    if a != [] {
      assert query + FieldSeparator + Assign(field) == UpdatePrefix + (SetClause(Fields(a)) + FieldSeparator + Assign(field));
    }
  }

  /** Every assigned field is one of the editable ones. */
  lemma {:induction false} AssignedFieldsEditable(patch: CommentPatch, k: nat)
    requires k <= |EditableFields|
    ensures forall i :: 0 <= i < |Assignments(patch, k)| ==> Assignments(patch, k)[i].0 in EditableFields
  {
    if k > 0 {
      AssignedFieldsEditable(patch, k - 1);
    }
  }

  lemma FieldNamesHaveNoMark()
    ensures forall f :: f in EditableFields ==> CountChar(f, '?') == 0
  {
    CountCharAbsent("name", '?');
    CountCharAbsent("body", '?');
    CountCharAbsent("email", '?');
  }

  lemma AssignPlaceholder(field: string)
    requires CountChar(field, '?') == 0
    ensures CountChar(Assign(field), '?') == 1
  {
    CountCharAppend(field, AssignSuffix, '?');
    CountOnceAt(AssignSuffix, '?', 3);
  }

  lemma {:induction false} SetClausePlaceholders(fields: seq<string>)
    requires forall i :: 0 <= i < |fields| ==> CountChar(fields[i], '?') == 0
    ensures CountChar(SetClause(fields), '?') == |fields|
  {
    if |fields| == 1 {
      AssignPlaceholder(fields[0]);
    } else if |fields| > 1 {
      var init := fields[..|fields| - 1];
      SetClausePlaceholders(init);
      AssignPlaceholder(fields[|fields| - 1]);
      CountCharAppend(SetClause(init) + FieldSeparator, Assign(fields[|fields| - 1]), '?');
      CountCharAppend(SetClause(init), FieldSeparator, '?');
      CountCharAbsent(FieldSeparator, '?');
    }
  }

  lemma StatementEndsHaveOneMark()
    ensures CountChar(UpdatePrefix, '?') == 0
    ensures CountChar(WhereCommentId, '?') == 1
  {
    CountCharAbsent(UpdatePrefix, '?');
    CountOnceAt(WhereCommentId, '?', 20);
  }

  /** The statement holds one `?` per bound value. */
  lemma UpdatePlaceholders(patch: CommentPatch, id: string)
    ensures CountChar(UpdatePrefix + SetClause(Fields(AllAssignments(patch))) + WhereCommentId, '?')
         == |Values(AllAssignments(patch)) + [id]|
  {
    var fs := Fields(AllAssignments(patch));
    AssignedFieldsEditable(patch, |EditableFields|);
    FieldNamesHaveNoMark();
    SetClausePlaceholders(fs);
    StatementEndsHaveOneMark();
    CountCharAppend(UpdatePrefix + SetClause(fs), WhereCommentId, '?');
    CountCharAppend(UpdatePrefix, SetClause(fs), '?');
  }

  /** With no editable key the SET list is empty: the statement reads
      `UPDATE comments SET  WHERE comment_id = ?` and binds only the id. */
  lemma EmptyPatchStatement(patch: CommentPatch, id: string)
    requires patch.name.None? && patch.body.None? && patch.email.None?
    ensures UpdatePrefix + SetClause(Fields(AllAssignments(patch))) + WhereCommentId == UpdatePrefix + WhereCommentId
    ensures Values(AllAssignments(patch)) + [id] == [id]
  {
    AssignmentsInOrder(patch);
  }

  // ---- PATCH and DELETE: the table updates ----

  /** A comment row after the `UPDATE`: each present field takes the body's value. */
  function PatchedComment(row: CommentRow, patch: CommentPatch): CommentRow
  {
    row.(name := if patch.name.Some? then patch.name.value else row.name,
         body := if patch.body.Some? then patch.body.value else row.body,
         email := if patch.email.Some? then patch.email.value else row.email)
  }

  /** The `UPDATE` run over the table. */
  function UpdateComments(comments: seq<CommentRow>, id: string, patch: CommentPatch): (r: seq<CommentRow>)
    ensures |r| == |comments|
    ensures forall i :: 0 <= i < |comments| && comments[i].commentId != id ==> r[i] == comments[i]
    ensures forall i :: 0 <= i < |comments| && comments[i].commentId == id ==>
      r[i].commentId == id && r[i].productId == comments[i].productId
      && r[i].name == (if patch.name.Some? then patch.name.value else comments[i].name)
      && r[i].body == (if patch.body.Some? then patch.body.value else comments[i].body)
      && r[i].email == (if patch.email.Some? then patch.email.value else comments[i].email)
  {
    seq(|comments|, i requires 0 <= i < |comments| =>
      if comments[i].commentId == id then PatchedComment(comments[i], patch) else comments[i])
  }

  /** Comment ids are unique, as the primary key makes them. */
  ghost predicate UniqueCommentIds(comments: seq<CommentRow>)
  {
    forall i, j :: 0 <= i < j < |comments| ==> comments[i].commentId != comments[j].commentId
  }

  /** With unique ids, "exactly one row affected" means "the comment exists": PATCH and
      DELETE succeed iff there is a comment with the id. */
  lemma {:induction false} OneRowIffExists(comments: seq<CommentRow>, id: string)
    requires UniqueCommentIds(comments)
    ensures Count(comments, CommentIdIs(id)) == 1 <==> exists i :: 0 <= i < |comments| && comments[i].commentId == id
  {
    if comments != [] {
      var rest := comments[1..];
      assert UniqueCommentIds(rest) by {
        forall i, j | 0 <= i < j < |rest| ensures rest[i].commentId != rest[j].commentId {
          assert rest[i] == comments[i + 1] && rest[j] == comments[j + 1];
        }
      }
      OneRowIffExists(rest, id);
      CountZero(rest, CommentIdIs(id));
      if comments[0].commentId == id {
        forall i | 0 <= i < |rest| ensures !CommentIdIs(id)(rest[i]) {
          assert rest[i] == comments[i + 1];
        }
      } else {
        if exists i :: 0 <= i < |comments| && comments[i].commentId == id {
          var i :| 0 <= i < |comments| && comments[i].commentId == id;
          assert rest[i - 1] == comments[i];
        }
        if exists i :: 0 <= i < |rest| && rest[i].commentId == id {
          var i :| 0 <= i < |rest| && rest[i].commentId == id;
          assert comments[i + 1] == rest[i];
        }
      }
    }
  }

  /** The comments router. */
  class CommentsRouter {
    const db: Database
    const ids: IdSource

    constructor (db: Database, ids: IdSource)
      ensures this.db == db && this.ids == ids
    {
      this.db := db;
      this.ids := ids;
    }

    /** GET `/` (lines 28-41). */
    method GetAll() returns (reply: Reply<seq<Comment>>)
      ensures reply == Ok(200, MapComments(db.comments))
    {
      reply := Ok(200, MapComments(db.comments));
    }

    /** GET `/:id` (lines 44-76): the first row with the id. */
    method GetById(id: string) returns (reply: Reply<Comment>)
      ensures !IsUuid(id) ==> reply == Invalid([CommentIdNotUuid])
      ensures IsUuid(id) && First(db.comments, CommentIdIs(id)).None? ==> reply == Fail(404, CommentNotFound(id))
      ensures IsUuid(id) && First(db.comments, CommentIdIs(id)).Some? ==>
                reply == Ok(200, MapComment(First(db.comments, CommentIdIs(id)).value))
    {
      if !IsUuid(id) {
        return Invalid([CommentIdNotUuid]);
      }
      var rows := Filter(db.comments, CommentIdIs(id));
      FirstIsFilterHead(db.comments, CommentIdIs(id));
      if |rows| == 0 {
        return Fail(404, CommentNotFound(id));
      }
      reply := Ok(200, MapComments(rows)[0]);
    }

    /** POST `/` (lines 78-139): validation, then the duplicate query, then the insert. */
    method Post(body: Option<Entries>) returns (reply: Reply<string>)
      modifies db, ids
      ensures db.products == old(db.products) && db.images == old(db.images) && db.similarity == old(db.similarity)
      ensures ValidationMessage(body).Some? ==>
                reply == Fail(400, ValidationMessage(body).value)
                && db.comments == old(db.comments) && ids.issued == old(ids.issued)
      ensures ValidationMessage(body).None? && PayloadOf(body.value).None? ==>
                reply == NoReply && db.comments == old(db.comments) && ids.issued == old(ids.issued)
      ensures ValidationMessage(body).None? && PayloadOf(body.value).Some? ==>
        var c := PayloadOf(body.value).value;
        if exists i :: 0 <= i < |old(db.comments)| && SameCommentAs(c)(old(db.comments)[i])
        then reply == Fail(422, DuplicateComment) && db.comments == old(db.comments) && ids.issued == old(ids.issued)
        else
          var id := ids.uuid(old(ids.issued));
          && db.comments == old(db.comments) + [CommentRow(id, c.name, c.email, c.body, c.productId)]
          && reply == Ok(201, "Comment id:" + id + " has been added!")
          && ids.issued == old(ids.issued) + 1
    {
      var message := ValidateComment(body);
      if message.Some? {
        return Fail(400, message.value);
      }
      var payload := PayloadOf(body.value);
      if payload.None? {
        return NoReply;
      }
      var c := payload.value;
      var same := Filter(db.comments, SameCommentAs(c));
      FilterMembers(db.comments, SameCommentAs(c));
      if |same| > 0 {
        assert same[0] in db.comments;
        return Fail(422, DuplicateComment);
      }
      forall i | 0 <= i < |db.comments| ensures !SameCommentAs(c)(db.comments[i]) {
        assert db.comments[i] in db.comments;
      }
      var id := ids.Next();
      db.comments := db.comments + [CommentRow(id, c.name, c.email, c.body, c.productId)];
      reply := Ok(201, "Comment id:" + id + " has been added!");
    }

    /** PATCH `/` (lines 141-183). With no editable key the statement does not parse and the
        handler answers 500; success needs exactly one affected row. */
    method Patch(patch: CommentPatch) returns (reply: Reply<string>)
      modifies db
      ensures db.products == old(db.products) && db.images == old(db.images) && db.similarity == old(db.similarity)
      ensures !Truthy(patch.id) ==> reply == Fail(400, MissingId) && db.comments == old(db.comments)
      ensures Truthy(patch.id) && AllAssignments(patch) == [] ==> reply == Fail(500, PatchFailed) && db.comments == old(db.comments)
      ensures Truthy(patch.id) && AllAssignments(patch) != [] ==>
        var id := patch.id.value;
        && db.comments == UpdateComments(old(db.comments), id, patch)
        && reply == if Count(old(db.comments), CommentIdIs(id)) == 1 then Ok(200, "OK") else Fail(404, "Comment with id " + id + " not found")
    {
      if !Truthy(patch.id) {
        return Fail(400, MissingId);
      }
      var id := patch.id.value;
      var query, values := BuildCommentUpdate(patch, id);
      if |values| == 1 {
        // Only the id is bound: the SET list is empty.
        return Fail(500, PatchFailed);
      }
      var affected := Count(db.comments, CommentIdIs(id));
      db.comments := UpdateComments(db.comments, id, patch);
      if affected == 1 {
        return Ok(200, "OK");
      }
      reply := Fail(404, "Comment with id " + id + " not found");
    }

    /** DELETE `/:id` (lines 186-204): success needs exactly one deleted row. */
    method Delete(id: string) returns (reply: Reply<string>)
      modifies db
      ensures db.products == old(db.products) && db.images == old(db.images) && db.similarity == old(db.similarity)
      ensures db.comments == Reject(old(db.comments), CommentIdIs(id))
      ensures reply == if Count(old(db.comments), CommentIdIs(id)) == 1 then Ok(200, "") else Fail(404, CommentNotFound(id))
    {
      var affected := Count(db.comments, CommentIdIs(id));
      db.comments := Reject(db.comments, CommentIdIs(id));
      if affected == 1 {
        return Ok(200, "");
      }
      reply := Fail(404, CommentNotFound(id));
    }
  }
}
