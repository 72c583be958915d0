/** What an Express route handler does, as an ordered trace of effects. */
module Express {
  import opened Js

  /** A stored document as the database client hands it back; `id` is its
      `id` getter (the string form of `_id`). */
  datatype Doc = Doc(id: string, props: map<string, Value>)

  /** The body a handler sends. */
  datatype Payload =
    | NoBody
    | JsonValue(v: Value)
    | JsonDoc(doc: Doc)
    | JsonDocs(docs: seq<Doc>)

  /** One observable step of a handler, in the order it happens.  `C` is the
      kind of library or database call the handler can issue. */
  datatype Effect<C> =
    | Call(call: C)
      /** `res.status(status).location(...).json(...)`, or `.end()` for `NoBody` */
    | Respond(status: int, location: Option<string>, body: Payload)
      /** `next()`: fall through to the next route, which ends in the 404 handler */
    | Next
      /** `next(err)`, or a synchronous throw that Express turns into it */
    | NextErr(err: Error)

  /** The trace issues at least one library or database call. */
  predicate CallsOut<C>(effects: seq<Effect<C>>) {
    exists i :: 0 <= i < |effects| && effects[i].Call?
  }
}
