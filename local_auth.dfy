/** The verify callback of the local (username and password) strategy: from the
    user lookup and the password check to the `done(...)` call it ends with. */
module LocalAuth {
  import opened Js
  import opened Express

  /** What reaches the `catch`: one of the callback's own `LoginError`
      rejections, or a failure of the lookup itself. */
  datatype Caught =
    | LoginError(message: string, location: string)
    | Failure(err: Error)

  /** How the callback calls `done`. */
  datatype Done =
      /** `done(null, user)` */
    | Authenticated(user: Doc)
      /** `done(null, false)`: authentication refused */
    | Denied
      /** `done(err)` */
    | Errored(err: Error)

  /** The `catch`: anything whose `reason` is `'LoginError'` is a refusal and
      its message and location are dropped; anything else is an error. */
  function Catch(c: Caught): (d: Done)
    ensures !d.Authenticated?
    ensures c.LoginError? ==> d == Denied
    ensures c.Failure? ==> (d == Denied <==> ReasonOf(c.err) == Str("LoginError"))
    ensures c.Failure? && d != Denied ==> d == Errored(c.err)
  {
    match c
    case LoginError(_, _) => Denied
    case Failure(e) => if ReasonOf(e) == Str("LoginError") then Denied else Errored(e)
  }

  /** The callback.  `findOne` is the settled `User.findOne({username})`, and
      `validatePassword(user, password)` is what `user.validatePassword(password)`
      returns. */
  function Verify(username: string, password: string,
                  findOne: string -> Outcome<Option<Doc>>,
                  validatePassword: (Doc, string) -> Value): (d: Done)
    // only a found user whose password check is truthy gets through, as itself
    ensures d.Authenticated? <==>
      && findOne(username).Resolved? && findOne(username).value.Some?
      && Truthy(validatePassword(findOne(username).value.value, password))
    ensures d.Authenticated? ==> d.user == findOne(username).value.value
    ensures findOne(username) == Resolved(None) ==> d == Denied
    // a failed lookup is an error, not a refusal, unless it claims to be a LoginError
    ensures d.Errored? <==>
      findOne(username).Rejected? && ReasonOf(findOne(username).err) != Str("LoginError")
    ensures d.Errored? ==> d.err == findOne(username).err
  {
    match findOne(username)
    case Rejected(e) => Catch(Failure(e))
    case Resolved(None) => Catch(LoginError("Incorrect Username", username))
    case Resolved(Some(user)) =>
      if !Truthy(validatePassword(user, password)) then
        Catch(LoginError("Incorrect Password", password))
      else
        Authenticated(user)
  }

  /** An unknown username is refused without the password ever being checked:
      any password check gives the same outcome. */
  lemma UnknownUserSkipsPasswordCheck(username: string, password: string,
                                      findOne: string -> Outcome<Option<Doc>>,
                                      check1: (Doc, string) -> Value, check2: (Doc, string) -> Value)
    requires findOne(username) == Resolved(None)
    ensures Verify(username, password, findOne, check1) == Verify(username, password, findOne, check2) == Denied
  {
  }

  /** An unknown username and a wrong password cannot be told apart. */
  lemma UnknownUserLooksLikeWrongPassword(
    username1: string, password1: string, findOne1: string -> Outcome<Option<Doc>>,
    check1: (Doc, string) -> Value,
    username2: string, password2: string, findOne2: string -> Outcome<Option<Doc>>,
    check2: (Doc, string) -> Value)
    requires findOne1(username1) == Resolved(None)
    requires findOne2(username2).Resolved? && findOne2(username2).value.Some?
    requires !Truthy(check2(findOne2(username2).value.value, password2))
    ensures Verify(username1, password1, findOne1, check1) == Verify(username2, password2, findOne2, check2)
  {
  }
}
