/** The `/notes` routes.  Each handler is a trace of effects: the 400 errors it
    passes to `next`, the database call it issues, and how it ends.  No handler
    takes the authenticated user: no filter, id lookup or record mentions an owner.

    The database and the id check are parameters: `isValidId` stands for
    `mongoose.Types.ObjectId.isValid`, and each store function says how the
    promise of the corresponding call settles. */
module Notes {
  import opened Js
  import opened Express

  /** A condition in a list filter. */
  datatype Condition =
      /** `{ $regex: new RegExp(source, flags) }` */
    | Pattern(source: Value, flags: string)
      /** the field equals the value (on an array field: contains it) */
    | Is(v: Value)

  type Filter = map<string, Condition>

  /** The database calls the handlers make (`populate` and `sortBy` name the
      path joined in and the sort key). */
  datatype NoteCall =
    | FindNotes(filter: Filter, populate: string, sortBy: string)
    | FindById(id: string, populate: string)
    | Create(record: map<string, Value>)
    | FindByIdAndUpdate(id: string, update: map<string, Value>, populate: string)
    | FindByIdAndRemove(id: string)

  const InvalidId: Error := Raised("The `id` is not valid", 400)
  const MissingTitle: Error := Raised("Missing `title` in request body", 400)
  /** What `tags.forEach` throws when `tags` is truthy but not an array. */
  const TagsNotIterable: Error := Thrown("TypeError", "tags.forEach is not a function")

  /* ---------- GET /notes ---------- */

  /** The list filter: a case-insensitive title pattern when `searchTerm` is
      truthy, a folder match when `folderId` is, a tag match when `tagId` is. */
  function ListFilter(query: map<string, Value>): (f: Filter)
    ensures "title" in f <==> Truthy(Get(query, "searchTerm"))
    ensures "title" in f ==> f["title"] == Pattern(Get(query, "searchTerm"), "i")
    ensures "folderId" in f <==> Truthy(Get(query, "folderId"))
    ensures "folderId" in f ==> f["folderId"] == Is(Get(query, "folderId"))
    ensures "tags" in f <==> Truthy(Get(query, "tagId"))
    ensures "tags" in f ==> f["tags"] == Is(Get(query, "tagId"))
    // nothing else, and in particular no owner
    ensures f.Keys <= {"title", "folderId", "tags"}
  {
    var searchTerm, folderId, tagId := Get(query, "searchTerm"), Get(query, "folderId"), Get(query, "tagId");
    (if Truthy(searchTerm) then map["title" := Pattern(searchTerm, "i")] else map[])
    + (if Truthy(folderId) then map["folderId" := Is(folderId)] else map[])
    + (if Truthy(tagId) then map["tags" := Is(tagId)] else map[])
  }

  /** `GET /notes`.  `patternError(v)` is the message of the `SyntaxError` that
      `new RegExp(v, 'i')` throws, or nothing when it accepts `v`; `find` is the
      settled `Note.find(filter).populate('tags').sort('created')`. */
  method ListNotes(query: map<string, Value>, patternError: Value -> Option<string>,
                   find: Filter -> Outcome<seq<Doc>>) returns (effects: seq<Effect<NoteCall>>)
    // a malformed pattern throws before any query, and Express passes the throw to `next`
    ensures Truthy(Get(query, "searchTerm")) && patternError(Get(query, "searchTerm")).Some? ==>
      effects == [NextErr(Thrown("SyntaxError", patternError(Get(query, "searchTerm")).value))]
    ensures !(Truthy(Get(query, "searchTerm")) && patternError(Get(query, "searchTerm")).Some?) ==>
      // one query, tags joined in, oldest first; its results or its error
      && |effects| == 2
      && effects[0] == Call(FindNotes(ListFilter(query), "tags", "created"))
      && effects[1] == match find(ListFilter(query))
                       case Resolved(notes) => Respond(200, None, JsonDocs(notes))
                       case Rejected(e) => NextErr(e)
  {
    var searchTerm, folderId, tagId := Get(query, "searchTerm"), Get(query, "folderId"), Get(query, "tagId");
    var filter: Filter := map[];
    if Truthy(searchTerm) {
      var thrown := patternError(searchTerm);
      if thrown.Some? {
        return [NextErr(Thrown("SyntaxError", thrown.value))];
      }
      filter := filter["title" := Pattern(searchTerm, "i")];
    }
    if Truthy(folderId) {
      filter := filter["folderId" := Is(folderId)];
    }
    if Truthy(tagId) {
      filter := filter["tags" := Is(tagId)];
    }
    assert filter == ListFilter(query);
    effects := [Call(FindNotes(filter, "tags", "created"))];
    match find(filter)
    case Resolved(notes) =>
      effects := effects + [Respond(200, None, JsonDocs(notes))];
    case Rejected(e) =>
      effects := effects + [NextErr(e)];
  }

  /* ---------- GET /notes/:id ---------- */

  /** How a lookup by id ends: the note, `next()` when there is none, or the error. */
  function Found(result: Outcome<Option<Doc>>): (effects: seq<Effect<NoteCall>>)
    ensures |effects| == 1
    ensures effects[0] == Next <==> result == Resolved(None)
    ensures effects[0].Respond? <==> result.Resolved? && result.value.Some?
    ensures effects[0].Respond? ==> effects[0] == Respond(200, None, JsonDoc(result.value.value))
    ensures effects[0].NextErr? <==> result.Rejected?
    ensures effects[0].NextErr? ==> effects[0].err == result.err
  {
    match result
    case Resolved(Some(note)) => [Respond(200, None, JsonDoc(note))]
    case Resolved(None) => [Next]
    case Rejected(e) => [NextErr(e)]
  }

  /** `GET /notes/:id`.  `findById` is the settled `Note.findById(id).populate('tags')`. */
  function GetNote(id: string, isValidId: Value -> bool,
                   findById: string -> Outcome<Option<Doc>>): (effects: seq<Effect<NoteCall>>)
    // a malformed id is a 400 and the database is never asked
    ensures CallsOut(effects) <==> isValidId(Str(id))
    ensures !isValidId(Str(id)) ==> effects == [NextErr(InvalidId)]
    ensures isValidId(Str(id)) ==>
      effects == [Call(FindById(id, "tags"))] + Found(findById(id))
  {
    if !isValidId(Str(id)) then
      [NextErr(InvalidId)]
    else
      var effects := [Call(FindById(id, "tags"))] + Found(findById(id));
      assert effects[0].Call?;
      effects
  }

  /* ---------- the tag check shared by POST and PUT ---------- */

  /** One 400 error for every tag that is not a valid id, in order. */
  function InvalidIdErrors(tags: seq<Value>, isValidId: Value -> bool): (errs: seq<Effect<NoteCall>>)
    ensures |errs| <= |tags|
    ensures forall i :: 0 <= i < |errs| ==> errs[i] == NextErr(InvalidId)
  {
    if tags == [] then []
    else
      InvalidIdErrors(tags[..|tags| - 1], isValidId)
      + (if isValidId(tags[|tags| - 1]) then [] else [NextErr(InvalidId)])
  }

  lemma {:induction false} InvalidIdErrorsEmpty(tags: seq<Value>, isValidId: Value -> bool)
    ensures InvalidIdErrors(tags, isValidId) == [] <==> forall i :: 0 <= i < |tags| ==> isValidId(tags[i])
  {
    if tags != [] {
      var init := tags[..|tags| - 1];
      InvalidIdErrorsEmpty(init, isValidId);
      assert forall i :: 0 <= i < |init| ==> init[i] == tags[i];
    }
  }

  /** Each tag adds at most one error: appending a tag adds an error exactly when
      it is not a valid id. */
  lemma InvalidIdErrorsAppend(tags: seq<Value>, tag: Value, isValidId: Value -> bool)
    ensures |InvalidIdErrors(tags + [tag], isValidId)|
         == |InvalidIdErrors(tags, isValidId)| + (if isValidId(tag) then 0 else 1)
  {
  }

  /** `tags.forEach(tag => { if (!isValid(tag)) { ...; return next(err); } })`:
      the `return` leaves only the callback, so every tag is visited. */
  method ReportInvalidTags(tags: seq<Value>, isValidId: Value -> bool) returns (errs: seq<Effect<NoteCall>>)
    ensures errs == InvalidIdErrors(tags, isValidId)
  {
    errs := [];
    var i := 0;
    while i < |tags|
      invariant 0 <= i <= |tags|
      invariant errs == InvalidIdErrors(tags[..i], isValidId)
    {
      assert tags[..i + 1][..i] == tags[..i];
      if !isValidId(tags[i]) {
        errs := errs + [NextErr(InvalidId)];
      }
      i := i + 1;
    }
    assert tags[..i] == tags;
  }

  /** `if (tags) tags.forEach(...)` throws when `tags` is truthy but not an array. */
  function NotIterable(tags: Value): (b: bool)
    // exactly the truthy JSON values that have no `forEach`
    ensures b <==> || (tags.Str? && tags.s != "")
                   || (tags.Num? && tags.n != 0.0)
                   || tags == Bool(true)
                   || tags.Obj?
  {
    Truthy(tags) && !tags.Arr?
  }

  /** The errors the tag check reports when it does not throw: none when
      `tags` is not an array (a falsy value skips the check). */
  function TagErrors(tags: Value, isValidId: Value -> bool): (errs: seq<Effect<NoteCall>>)
    ensures !tags.Arr? ==> errs == []
    ensures tags.Arr? ==> |errs| <= |tags.items|
    ensures forall i :: 0 <= i < |errs| ==> errs[i] == NextErr(InvalidId)
    ensures errs == [] <==> !tags.Arr? || forall i :: 0 <= i < |tags.items| ==> isValidId(tags.items[i])
  {
    if tags.Arr? then
      InvalidIdErrorsEmpty(tags.items, isValidId);
      InvalidIdErrors(tags.items, isValidId)
    else []
  }

  /** Runs the tag check: `None` when it throws, else the errors it reports. */
  method CheckTags(tags: Value, isValidId: Value -> bool) returns (errs: Option<seq<Effect<NoteCall>>>)
    ensures errs.None? <==> NotIterable(tags)
    ensures errs.Some? ==> errs.value == TagErrors(tags, isValidId)
  {
    if !Truthy(tags) {
      return Some([]);
    }
    if !tags.Arr? {
      return None;
    }
    var reported := ReportInvalidTags(tags.items, isValidId);
    return Some(reported);
  }

  /* ---------- POST /notes ---------- */

  /** The record `POST /notes` stores: title, content and tags as sent, and the
      folder id, with every falsy value made `null`. */
  function NewNoteRecord(body: map<string, Value>): (r: map<string, Value>)
    ensures r.Keys == {"title", "content", "folderId", "tags"}
    ensures !Truthy(Get(body, "folderId")) ==> r["folderId"] == Null
    ensures Truthy(Get(body, "folderId")) ==> r["folderId"] == Get(body, "folderId")
    ensures forall k :: k in r && k != "folderId" ==> r[k] == Get(body, k)
  {
    var folderId := Get(body, "folderId");
    map["title" := Get(body, "title"), "content" := Get(body, "content"),
        "folderId" := if Truthy(folderId) then folderId else Null,
        "tags" := Get(body, "tags")]
  }

  /** How a create ends: 201 located at `<originalUrl>/<id>`, or the error. */
  function Created(result: Outcome<Doc>, originalUrl: string): (effects: seq<Effect<NoteCall>>)
    ensures |effects| == 1
    ensures effects[0].Respond? <==> result.Resolved?
    ensures result.Resolved? ==>
      effects[0] == Respond(201, Some(originalUrl + "/" + result.value.id), JsonDoc(result.value))
    ensures result.Rejected? ==> effects[0] == NextErr(result.err)
  {
    match result
    case Resolved(note) => [Respond(201, Some(originalUrl + "/" + note.id), JsonDoc(note))]
    case Rejected(e) => [NextErr(e)]
  }

  /** `POST /notes`.  `create` is the settled `Note.create(record)`. */
  method CreateNote(body: map<string, Value>, originalUrl: string, isValidId: Value -> bool,
                    create: map<string, Value> -> Outcome<Doc>) returns (effects: seq<Effect<NoteCall>>)
    // a falsy title is the first check, and nothing is written
    ensures !Truthy(Get(body, "title")) ==> effects == [NextErr(MissingTitle)]
    ensures Truthy(Get(body, "title")) && NotIterable(Get(body, "tags")) ==>
      effects == [NextErr(TagsNotIterable)]
    // invalid tags are reported but the record is still created
    ensures Truthy(Get(body, "title")) && !NotIterable(Get(body, "tags")) ==>
      effects == TagErrors(Get(body, "tags"), isValidId)
                 + [Call(Create(NewNoteRecord(body)))]
                 + Created(create(NewNoteRecord(body)), originalUrl)
  {
    var title, content, folderId, tags := Get(body, "title"), Get(body, "content"), Get(body, "folderId"), Get(body, "tags");
    if folderId == Undefined {
      folderId := Null;
    }
    if !Truthy(title) {
      return [NextErr(MissingTitle)];
    }
    var reported := CheckTags(tags, isValidId);
    if reported.None? {
      return [NextErr(TagsNotIterable)];
    }
    if !Truthy(folderId) {
      folderId := Null;
    }
    var newItem := map["title" := title, "content" := content, "folderId" := folderId, "tags" := tags];
    assert newItem == NewNoteRecord(body);
    effects := reported.value + [Call(Create(newItem))] + Created(create(newItem), originalUrl);
  }

  /* ---------- PUT /notes/:id ---------- */

  /** The update `PUT /notes/:id` sends: title, content and tags as sent, and
      the folder id only when it is a valid id. */
  function UpdateRecord(body: map<string, Value>, isValidId: Value -> bool): (r: map<string, Value>)
    ensures {"title", "content", "tags"} <= r.Keys <= {"title", "content", "tags", "folderId"}
    ensures "folderId" in r <==> isValidId(Get(body, "folderId"))
    ensures forall k :: k in r ==> r[k] == Get(body, k)
  {
    var item := map["title" := Get(body, "title"), "content" := Get(body, "content"), "tags" := Get(body, "tags")];
    if isValidId(Get(body, "folderId")) then item["folderId" := Get(body, "folderId")] else item
  }

  /** `PUT /notes/:id`.  `update` is the settled
      `Note.findByIdAndUpdate(id, update).populate('tags')`. */
  method UpdateNote(id: string, body: map<string, Value>, isValidId: Value -> bool,
                    update: (string, map<string, Value>) -> Outcome<Option<Doc>>)
    returns (effects: seq<Effect<NoteCall>>)
    // the title is checked before the id
    ensures !Truthy(Get(body, "title")) ==> effects == [NextErr(MissingTitle)]
    ensures Truthy(Get(body, "title")) && !isValidId(Str(id)) ==> effects == [NextErr(InvalidId)]
    ensures Truthy(Get(body, "title")) && isValidId(Str(id)) && NotIterable(Get(body, "tags")) ==>
      effects == [NextErr(TagsNotIterable)]
    // invalid tags are reported but the update is still sent
    ensures Truthy(Get(body, "title")) && isValidId(Str(id)) && !NotIterable(Get(body, "tags")) ==>
      effects == TagErrors(Get(body, "tags"), isValidId)
                 + [Call(FindByIdAndUpdate(id, UpdateRecord(body, isValidId), "tags"))]
                 + Found(update(id, UpdateRecord(body, isValidId)))
  {
    var title, content, folderId, tags := Get(body, "title"), Get(body, "content"), Get(body, "folderId"), Get(body, "tags");
    var updateItem := map["title" := title, "content" := content, "tags" := tags];
    if !Truthy(title) {
      return [NextErr(MissingTitle)];
    }
    if !isValidId(Str(id)) {
      return [NextErr(InvalidId)];
    }
    if isValidId(folderId) {
      updateItem := updateItem["folderId" := folderId];
    }
    var reported := CheckTags(tags, isValidId);
    if reported.None? {
      return [NextErr(TagsNotIterable)];
    }
    assert updateItem == UpdateRecord(body, isValidId);
    effects := reported.value + [Call(FindByIdAndUpdate(id, updateItem, "tags"))] + Found(update(id, updateItem));
  }

  /* ---------- DELETE /notes/:id ---------- */

  /** `DELETE /notes/:id`.  `remove` is the settled `Note.findByIdAndRemove(id)`. */
  function DeleteNote(id: string, remove: string -> Outcome<Option<Doc>>): (effects: seq<Effect<NoteCall>>)
    // no id check: the database is always asked
    ensures |effects| == 2 && effects[0] == Call(FindByIdAndRemove(id))
    // 204 whenever the call does not fail, whether or not a note was removed
    ensures effects[1] == Respond(204, None, NoBody) <==> remove(id).Resolved?
    ensures remove(id).Rejected? ==> effects[1] == NextErr(remove(id).err)
  {
    match remove(id)
    case Resolved(_) => [Call(FindByIdAndRemove(id)), Respond(204, None, NoBody)]
    case Rejected(e) => [Call(FindByIdAndRemove(id)), NextErr(e)]
  }
}
