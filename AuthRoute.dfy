/** /api/auth: GET answers the caller's own record without its password;
    POST logs in. Both only read the users collection, so they are
    functions of it. `compare` is bcrypt's compare of a plaintext with a
    stored hash, `sign` is jwt.sign with the secret bound. */
module AuthRoute {
  import opened Js
  import opened Http
  import opened Tokens
  import opened Models
  import UsersRoute

  datatype LoginBody = LoginBody(email: Option<string>, password: Option<string>)

  const NotAnEmail: string := "Not a valid email"
  const PasswordRequired: string := "Password is required"
  const InvalidCredentials: string := "Invalid credentials"

  /** The record without its password: every other field as stored. */
  function Public(u: User): (p: PublicUser)
    ensures p.id == u.id && p.name == u.name && p.email == u.email && p.avatar == u.avatar
  {
    PublicUser(u.id, u.name, u.email, u.avatar)
  }

  /** GET /api/auth behind the gate: `findById(id).select("-password")`. A
      missing user is answered with a JSON null. */
  function Me(users: seq<User>, id: UserId): (r: Reply<Option<PublicUser>>)
    ensures r.Ok?
    ensures r.body.None? <==> id !in Ids(users)
    ensures r.body.Some? ==> exists i :: 0 <= i < |users| && users[i].id == id
                                          && r.body.value == PublicUser(id, users[i].name, users[i].email, users[i].avatar)
  {
    var i := IndexOf(Ids(users), id);
    if i == -1 then Ok(None) else Ok(Some(Public(users[i])))
  }

  /** The password never reaches the reply: two collections that differ only
      in the stored hashes answer GET /api/auth alike. */
  lemma MeIgnoresPasswords(users: seq<User>, others: seq<User>, id: UserId)
    requires |users| == |others|
    requires forall i :: 0 <= i < |users| ==> others[i] == users[i].(password := others[i].password)
    ensures Me(users, id) == Me(others, id)
  {
    assert Ids(users) == Ids(others);
    var k := IndexOf(Ids(users), id);
    if k != -1 {
      assert Public(users[k]) == Public(others[k]);
    }
  }

  /** The validation errors, one item per failing check in declaration
      order: an e-mail-shaped `email`, and a `password` that exists (the
      empty string passes). */
  function LoginErrors(body: LoginBody, isEmail: string -> bool): (errs: seq<ErrorItem>)
    ensures errs == [] <==> UsersRoute.EmailShaped(isEmail, body.email) && body.password.Some?
    ensures FieldError("email", NotAnEmail) in errs <==> !UsersRoute.EmailShaped(isEmail, body.email)
    ensures FieldError("password", PasswordRequired) in errs <==> body.password.None?
    ensures |errs| == (if UsersRoute.EmailShaped(isEmail, body.email) then 0 else 1)
                      + (if body.password.Some? then 0 else 1)
    ensures !UsersRoute.EmailShaped(isEmail, body.email) ==> errs[0] == FieldError("email", NotAnEmail)
  {
    (if UsersRoute.EmailShaped(isEmail, body.email) then [] else [FieldError("email", NotAnEmail)])
    + (if body.password.Some? then [] else [FieldError("password", PasswordRequired)])
  }

  /** The one answer to both an unknown e-mail and a wrong password. */
  const BadLogin: Reply<TokenBody> := Errors([ErrorItem(None, InvalidCredentials)])

  /** POST /api/auth. */
  function Login(users: seq<User>, body: LoginBody, isEmail: string -> bool,
                 compare: (string, string) -> bool, sign: (Payload, nat) -> string): (r: Reply<TokenBody>)
    ensures LoginErrors(body, isEmail) != [] ==> r == Errors(LoginErrors(body, isEmail))
    ensures LoginErrors(body, isEmail) == [] && body.email.value !in Emails(users) ==> r == BadLogin
    ensures r.Ok? ==> exists i :: 0 <= i < |users| && users[i].email == body.email.value
                                   && compare(body.password.value, users[i].password)
                                   && r.body.token == Issue(sign, users[i].id)
  {
    var errs := LoginErrors(body, isEmail);
    if errs != [] then Errors(errs)
    else
      var i := IndexOf(Emails(users), body.email.value);
      if i == -1 then BadLogin
      else if !compare(body.password.value, users[i].password) then BadLogin
      else Ok(TokenBody(Issue(sign, users[i].id)))
  }

  /** An unknown e-mail and a known e-mail with the wrong password get the
      same answer, so the answer does not tell which accounts exist. */
  lemma UnknownEmailLikeWrongPassword(users: seq<User>, unknown: LoginBody, wrong: LoginBody,
                                      isEmail: string -> bool, compare: (string, string) -> bool,
                                      sign: (Payload, nat) -> string)
    requires UniqueEmails(users)
    requires LoginErrors(unknown, isEmail) == [] && unknown.email.value !in Emails(users)
    requires LoginErrors(wrong, isEmail) == []
    requires exists i :: 0 <= i < |users| && users[i].email == wrong.email.value
                         && !compare(wrong.password.value, users[i].password)
    ensures Login(users, unknown, isEmail, compare, sign) == Login(users, wrong, isEmail, compare, sign)
    ensures Login(users, wrong, isEmail, compare, sign) == Errors([ErrorItem(None, InvalidCredentials)])
  {
    var i :| 0 <= i < |users| && users[i].email == wrong.email.value
             && !compare(wrong.password.value, users[i].password);
    var k := IndexOf(Emails(users), wrong.email.value);
    assert Emails(users)[i] == wrong.email.value;
    assert k == i;
  }

  /** With unique e-mails, a valid login succeeds exactly when the e-mail
      belongs to a user whose stored hash matches the password, and the
      token is for that user. */
  lemma LoginSucceedsIff(users: seq<User>, body: LoginBody, isEmail: string -> bool,
                         compare: (string, string) -> bool, sign: (Payload, nat) -> string)
    requires UniqueEmails(users)
    requires LoginErrors(body, isEmail) == []
    ensures Login(users, body, isEmail, compare, sign).Ok? <==>
              exists i :: 0 <= i < |users| && users[i].email == body.email.value
                          && compare(body.password.value, users[i].password)
    ensures forall i :: 0 <= i < |users| && users[i].email == body.email.value
                        && compare(body.password.value, users[i].password) ==>
              Login(users, body, isEmail, compare, sign) == Ok(TokenBody(Issue(sign, users[i].id)))
  {
    forall i | 0 <= i < |users| && users[i].email == body.email.value
      ensures IndexOf(Emails(users), body.email.value) == i
    {
      assert Emails(users)[i] == body.email.value;
    }
  }

  /** Registering and then logging in with the same e-mail and password
      yields a token for the new user, given that bcrypt's compare accepts
      a password against its own salted hash. */
  lemma RegisterThenLogin(users: seq<User>, id: UserId, name: string, email: string, password: string,
                          salt: string, avatarOf: (string, UsersRoute.AvatarOptions) -> string,
                          hash: (string, string) -> string, isEmail: string -> bool,
                          compare: (string, string) -> bool, sign: (Payload, nat) -> string)
    requires email !in Emails(users)
    requires isEmail(email)
    requires compare(password, hash(password, salt))
    ensures Login(users + [UsersRoute.NewUser(id, name, email, password, salt, avatarOf, hash)],
                  LoginBody(Some(email), Some(password)), isEmail, compare, sign)
            == Ok(TokenBody(Issue(sign, id)))
  {
    var u := UsersRoute.NewUser(id, name, email, password, salt, avatarOf, hash);
    var s := users + [u];
    assert Emails(s)[|users|] == email;
    assert Emails(s)[..|users|] == Emails(users);
    assert IndexOf(Emails(s), email) == |users|;
  }
}
