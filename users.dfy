/** `POST /users`: registration.  The body is checked for required keys, then
    for string types; a passing body is hashed and stored, and a duplicate-key
    failure from the store becomes a 400. */
module Users {
  import opened Js
  import opened Express

  /** Keys that must be present (their values may be anything, even `''`). */
  const RequiredFields: seq<string> := ["username", "password"]
  /** Keys that, when present, must hold strings. */
  const StringFields: seq<string> := ["username", "password", "fullName"]

  /** The fields read out of a body that passed both checks. */
  datatype Credentials = Credentials(username: string, password: string, fullName: string)

  /** The JSON of a 422 response: `{code: 422, reason: 'ValidationError', message, location}`. */
  datatype ValidationError = ValidationError(message: string, location: string)

  datatype Checked = Accepted(creds: Credentials) | Refused(error: ValidationError)

  /** The record handed to the store; `password` holds the digest. */
  datatype NewUser = NewUser(username: string, password: string, fullName: string)

  /** The library and database calls registration makes. */
  datatype UserCall = HashPassword(plaintext: string) | CreateUser(record: NewUser)

  /** Every key a body needs for registration to go ahead: both required keys,
      and a string under each of the three string keys that is present. */
  predicate WellFormed(body: map<string, Value>) {
    && "username" in body && body["username"].Str?
    && "password" in body && body["password"].Str?
    && ("fullName" in body ==> body["fullName"].Str?)
  }

  /** The two checks, each reporting the first offending key. */
  function Validate(body: map<string, Value>): (r: Checked)
    ensures r.Accepted? <==> WellFormed(body)
    ensures r.Accepted? ==>
      r.creds == Credentials(body["username"].s, body["password"].s,
                             if "fullName" in body then body["fullName"].s else "")
    // presence first, username before password
    ensures "username" !in body ==> r == Refused(ValidationError("Missing field", "username"))
    ensures "username" in body && "password" !in body ==>
      r == Refused(ValidationError("Missing field", "password"))
    // then types, in the order username, password, fullName
    ensures "username" in body && "password" in body ==>
      && (!body["username"].Str? ==>
            r == Refused(ValidationError("Incorrect field type", "username")))
      && (body["username"].Str? && !body["password"].Str? ==>
            r == Refused(ValidationError("Incorrect field type", "password")))
      && (body["username"].Str? && body["password"].Str? &&
          "fullName" in body && !body["fullName"].Str? ==>
            r == Refused(ValidationError("Incorrect field type", "fullName")))
  {
    match Find(RequiredFields, f => f !in body)
    case Some(missing) => Refused(ValidationError("Missing field", missing))
    case None =>
      match Find(StringFields, f => f in body && !body[f].Str?)
      case Some(nonString) => Refused(ValidationError("Incorrect field type", nonString))
      case None =>
        assert StringFields[0] == "username" && StringFields[1] == "password";
        assert StringFields[2] == "fullName";
        Accepted(Credentials(body["username"].s, body["password"].s,
                             if "fullName" in body then body["fullName"].s else ""))
  }

  /** The JSON body of the 422 response: exactly `code`, `reason`, `message`
      and `location`, with the first offending key as the location. */
  function ErrorJson(e: ValidationError): (v: Value)
    ensures v.Obj? && v.props.Keys == {"code", "reason", "message", "location"}
    ensures v.props["code"] == Num(422.0) && v.props["reason"] == Str("ValidationError")
    ensures v.props["message"] == Str(e.message) && v.props["location"] == Str(e.location)
  {
    Obj(map["code" := Num(422.0), "reason" := Str("ValidationError"),
            "message" := Str(e.message), "location" := Str(e.location)])
  }

  /** The error the handler passes on when hashing or storing fails: a
      duplicate-key failure (code 11000) becomes a 400, anything else goes on as is. */
  function PassedOn(e: Error): (r: Error)
    ensures r == e <==> CodeOf(e) != Num(11000.0)
    ensures r != e ==> r == Raised("The username already exists", 400)
  {
    if CodeOf(e) == Num(11000.0) then Raised("The username already exists", 400) else e
  }

  /** The whole handler.  `hash` stands for `User.hashPassword` and `create`
      for `User.create`; each says how its promise settles. */
  function Register(body: map<string, Value>, hash: string -> Outcome<string>,
                    create: NewUser -> Outcome<Doc>): (effects: seq<Effect<UserCall>>)
    ensures |effects| >= 1
    // a refused body gets one 422 response and nothing else
    ensures Validate(body).Refused? ==>
      effects == [Respond(422, None, JsonValue(ErrorJson(Validate(body).error)))]
    // an accepted body always goes on to hashing, whatever its lengths
    ensures CallsOut(effects) <==> Validate(body).Accepted?
    ensures Validate(body).Accepted? ==>
      var c := Validate(body).creds;
      && effects[0] == Call(HashPassword(c.password))
      && match hash(c.password)
         case Rejected(e) => effects == [effects[0], NextErr(PassedOn(e))]
         case Resolved(digest) =>
           // the stored record: username, the digest (never the plaintext), fullName
           var record := NewUser(c.username, digest, c.fullName);
           && |effects| == 3
           && effects[1] == Call(CreateUser(record))
           && match create(record)
              case Rejected(e) => effects[2] == NextErr(PassedOn(e))
              case Resolved(user) => effects[2] == Respond(201, Some("/api/users/" + user.id), JsonDoc(user))
    // the only success is a 201
    ensures forall i :: 0 <= i < |effects| && effects[i].Respond? ==>
      effects[i].status in {201, 422}
  {
    match Validate(body)
    case Refused(error) => [Respond(422, None, JsonValue(ErrorJson(error)))]
    case Accepted(c) =>
      var rest :=
        match hash(c.password)
        case Rejected(e) => [NextErr(PassedOn(e))]
        case Resolved(digest) =>
          var record := NewUser(c.username, digest, c.fullName);
          match create(record)
          case Rejected(e) => [Call(CreateUser(record)), NextErr(PassedOn(e))]
          case Resolved(user) =>
            [Call(CreateUser(record)), Respond(201, Some("/api/users/" + user.id), JsonDoc(user))];
      var effects := [Call(HashPassword(c.password))] + rest;
      assert effects[0].Call?;
      effects
  }

  /** No trimming and no length bound: any two strings register, even empty ones
      or a one-character password. */
  lemma AnyStringsAccepted(username: string, password: string)
    ensures Validate(map["username" := Str(username), "password" := Str(password)])
         == Accepted(Credentials(username, password, ""))
  {
  }

  /** Keys other than the three the handler reads change nothing: they are
      neither checked nor stored. */
  lemma OtherKeysIgnored(body: map<string, Value>, key: string, v: Value)
    requires key !in StringFields
    ensures Validate(body[key := v]) == Validate(body)
  {
  }
}
