# Noteful: request-decision logic of the notes API

This project models, in Dafny, the decision logic of a small note-taking REST
backend built on Express, Passport and Mongoose:

- **Registration** (`POST /users`): the required-key check, the string-type
  check, the `fullName` default, the record handed to the store, and the
  mapping of a duplicate-key store error (code 11000) to a 400.
- **Notes** (`GET /notes`, `GET /notes/:id`, `POST /notes`, `PUT /notes/:id`,
  `DELETE /notes/:id`): which checks run and in what order, the 400 errors they
  raise, the list filter and the create/update records built from the request,
  and how each handler ends.
- **Local login**: the verify callback of the username/password strategy, from
  the user lookup and the password check to its `done(...)` call.

Each route handler is modelled as the ordered trace of what it does
(`Express.Effect`): the database or library calls it issues, the response it
sends, and its `next()` / `next(err)` calls. This captures that the tag check
in `POST` and `PUT` reports one `next(err)` per invalid tag but does not stop
the write (its `return` leaves only the `forEach` callback).

Everything outside the repository's code is a parameter: `isValidId` for
`mongoose.Types.ObjectId.isValid`, `patternError` for the message of the
`SyntaxError` that `new RegExp(v, 'i')` throws (or nothing when it accepts
`v`), and one function per database or library call that says how its
promise settles (`hash`, `create`, `find`, `findById`, `update`, `remove`,
`findOne`, `validatePassword`).

Files: `js.dfy` (JavaScript values, truthiness, `Array.prototype.find`,
errors, settled promises), `express.dfy` (documents, payloads, effects),
`users.dfy`, `notes.dfy`, `local_auth.dfy`.

The code does no owner scoping, no folder or tag ownership check, and no
trimming or length check on registration, and the model adds none: no handler
takes the authenticated user, the list filter has no owner key
(`Notes.ListFilter`), lookups, updates and deletes go by id alone, and any two
strings register (`Users.AnyStringsAccepted`).

## Model

| member | source | states |
|---|---|---|
| `Js.Find` | routes/users.js:11-28 | `find` over a key list: nothing found exactly when no key satisfies the test; otherwise the key found satisfies it and every earlier key does not |
| `Users.Validate` | routes/users.js:11-39 | accepted exactly when `username` and `password` are keys holding strings and `fullName`, if a key, holds a string; presence is key membership and is checked first, `username` before `password`; then the first non-string among `username`, `password`, `fullName` is reported; accepted credentials are the body's strings with `fullName` defaulting to `''` |
| `Users.ErrorJson` | routes/users.js:16-21 | the 422 body has exactly `code` 422, `reason` `'ValidationError'`, the message and the offending key as `location` |
| `Users.PassedOn` | routes/users.js:65-70 | an error with code 11000 becomes the 400 "The username already exists"; every other error is passed on unchanged |
| `Users.Register` | routes/users.js:8-73 | a refused body yields one 422 `ValidationError` response and no call; an accepted body is always hashed; the stored record is username, digest and fullName; a 201 located at `/api/users/<id>` follows a successful create; hashing or store failures reach `next` through the 11000 mapping; the only responses are 201 and 422 |
| `Users.AnyStringsAccepted` | routes/users.js:11-39 | no trimming and no length bound: any two strings, even empty or one character long, are accepted |
| `Users.OtherKeysIgnored` | routes/users.js:39-61 | adding a key other than `username`, `password`, `fullName` to the body does not change validation or the record |
| `Notes.ListFilter` | routes/notes.js:17-37 | the filter has a case-insensitive title pattern iff `searchTerm` is truthy, a `folderId` match iff `folderId` is truthy, a `tags` match iff `tagId` is truthy, and no other key (no owner) |
| `Notes.ListNotes` | routes/notes.js:16-48 | builds the filter step by step; a malformed pattern ends in `next(err)` with the runtime's `SyntaxError` and no query; otherwise one query with that filter, tags populated, sorted by `created`, then its results as JSON or `next(err)` |
| `Notes.Found` | routes/notes.js:62-71 | a found note is sent with 200, a missing one ends in `next()` with no error, a failure in `next(err)` |
| `Notes.GetNote` | routes/notes.js:51-72 | the database is called iff the id is valid; an invalid id yields the 400 "The `id` is not valid" alone; a valid one is looked up with tags populated |
| `Notes.InvalidIdErrors` | routes/notes.js:85-93 | at most one error per tag, and every error is the 400 "The `id` is not valid" |
| `Notes.InvalidIdErrorsEmpty` | routes/notes.js:85-93 | the tag check reports nothing iff every tag is a valid id |
| `Notes.InvalidIdErrorsAppend` | routes/notes.js:86-92 | each further tag adds one error exactly when it is not a valid id |
| `Notes.ReportInvalidTags` | routes/notes.js:86-92 | the `forEach` loop visits every tag and reports exactly the tag check's errors |
| `Notes.NotIterable` | routes/notes.js:85-86 | `tags.forEach` throws exactly for the truthy JSON values without `forEach`: a non-empty string, a nonzero number, `true`, an object |
| `Notes.TagErrors` | routes/notes.js:85-93 | a falsy `tags` skips the check; an array yields at most one 400 "The `id` is not valid" per tag, and none iff every tag is a valid id |
| `Notes.CheckTags` | routes/notes.js:85-93 | a truthy non-array `tags` throws; a falsy one reports nothing; an array reports its invalid ids |
| `Notes.NewNoteRecord` | routes/notes.js:76-101 | the created record has exactly `title`, `content`, `folderId`, `tags`; `folderId` is the body's when truthy and `null` otherwise; the rest are as sent |
| `Notes.Created` | routes/notes.js:103-109 | a created note is sent with 201 located at `<originalUrl>/<id>`; a failure ends in `next(err)` |
| `Notes.CreateNote` | routes/notes.js:75-110 | a falsy title yields the 400 "Missing `title` in request body" before anything else and no write; a non-array `tags` throws; otherwise the invalid-tag errors, then the create call with the record, then its outcome |
| `Notes.UpdateRecord` | routes/notes.js:115-133 | the update always carries `title`, `content`, `tags`, and carries `folderId` iff it is a valid id; each value is as sent |
| `Notes.UpdateNote` | routes/notes.js:113-160 | title checked before the id; an invalid id yields its 400 alone; a non-array `tags` throws; otherwise the invalid-tag errors, then the update call, then the note, `next()` or `next(err)` |
| `Notes.DeleteNote` | routes/notes.js:163-173 | no id check: the delete call is always issued; 204 iff the call does not fail, whether or not a note was removed; a failure ends in `next(err)` |
| `LocalAuth.Catch` | passport/local.js:26-31 | a `LoginError` rejection is a refusal whose message and location are dropped; any other rejection is `done(err)` with that error, unless its `reason` is `'LoginError'` |
| `LocalAuth.Verify` | passport/local.js:7-32 | `done(null, user)` iff the lookup found a user and the password check is truthy, with the looked-up record; an unknown username is refused; `done(err)` iff the lookup fails with a reason other than `'LoginError'` |
| `LocalAuth.UnknownUserSkipsPasswordCheck` | passport/local.js:8-16 | for an unknown username the outcome is a refusal that does not depend on the password check |
| `LocalAuth.UnknownUserLooksLikeWrongPassword` | passport/local.js:10-29 | an unknown username and a wrong password give the identical outcome (the login tests expect 401 "Unauthorized" for both, test/login.test.js:80-103) |

## Left out

- Express routing, router construction and the JWT guard wiring (routes/notes.js:9-12): no decision logic.
- The Mongoose calls themselves (`find`, `populate`, `sort`, `create`, `findByIdAndUpdate`, `findByIdAndRemove`, `findOne`) and the exact rules of `ObjectId.isValid`: each is a parameter; the model records the arguments each call receives and what the handler does with each way it settles.
- Regular-expression semantics of `new RegExp(searchTerm, 'i')`: the filter records the pattern source and the `i` flag; whether the pattern compiles, and the runtime's message when it does not, is the parameter `patternError`.
- Password hashing and verification (`User.hashPassword`, `validatePassword` in models/user, which is not part of this model): the hash is a parameter and the password check an opaque value whose truthiness decides.
- routes/auth.js: it only greets an already-authenticated user and issues no token, so the token assertions of the login tests are not modelled.
- The 400 "Bad Request" for empty login credentials and the 401 "Unauthorized" response: both come from the Passport libraries, not from this repository; the model stops at the `done(...)` call.
- The `{ new: true }` options object of `PUT` (routes/notes.js:117): it is never passed to the update call.
- What Express does after a handler has already called `next(err)` and then responds again (the tag check followed by the write): the trace records both, in order.
- `LocalAuth.Verify`: does not model a throw from inside `done(null, user)` being caught and turned into a second `done(err)` call.
- `console.log` calls, database connection handling and the test suites' setup.
- Numbers are reals: a JSON body cannot carry NaN, so NaN's falsiness is not modelled; a number that parses to Infinity stands as a nonzero real, truthy as Infinity is.
