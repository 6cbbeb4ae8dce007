/** POST /api/users: registration. The library calls are parameters:
    `isEmail` (the validator's e-mail check), `avatarOf` (gravatar's URL
    builder), `hash` (bcrypt's hash; `salt` is the random salt
    `genSalt(10)` produced), `sign` (jwt.sign with the secret bound), and
    `newId` is the id the database gives the new document. */
module UsersRoute {
  import opened Js
  import opened Http
  import opened Tokens
  import opened Models

  datatype RegisterBody = RegisterBody(name: Option<string>, email: Option<string>, password: Option<string>)

  /** The gravatar options: size, rating, default image. */
  datatype AvatarOptions = AvatarOptions(s: string, r: string, d: string)
  const AvatarSettings: AvatarOptions := AvatarOptions("200", "pg", "mm")

  const MinPasswordLength: nat := 6
  const NameRequired: string := "Name is required"
  const NotAnEmail: string := "Not a valid email"
  const ShortPassword: string := "Please enter a password with at least 6 characters"
  const UserExists: string := "User already exists"

  /** The e-mail check. An absent field reaches the validator as "", and
      `isEmail("")` is false, so the absent case fails outright here; a
      present value, the empty string included, is left to `isEmail`. */
  predicate EmailShaped(isEmail: string -> bool, v: Option<string>) {
    v.Some? && isEmail(v.value)
  }

  /** The validation errors: one item per failing check, in the order the
      checks are declared (name, email, password). */
  function RegisterErrors(body: RegisterBody, isEmail: string -> bool): (errs: seq<ErrorItem>)
    ensures errs == [] <==> Truthy(body.name) && EmailShaped(isEmail, body.email)
                            && |AsString(body.password)| >= MinPasswordLength
    ensures FieldError("name", NameRequired) in errs <==> !Truthy(body.name)
    ensures FieldError("email", NotAnEmail) in errs <==> !EmailShaped(isEmail, body.email)
    ensures FieldError("password", ShortPassword) in errs
            <==> |AsString(body.password)| < MinPasswordLength
    ensures |errs| == (if Truthy(body.name) then 0 else 1) + (if EmailShaped(isEmail, body.email) then 0 else 1)
                      + (if |AsString(body.password)| >= MinPasswordLength then 0 else 1)
    ensures !Truthy(body.name) ==> errs[0] == FieldError("name", NameRequired)
    ensures |AsString(body.password)| < MinPasswordLength ==> errs[|errs| - 1] == FieldError("password", ShortPassword)
  {
    (if Truthy(body.name) then [] else [FieldError("name", NameRequired)])
    + (if EmailShaped(isEmail, body.email) then [] else [FieldError("email", NotAnEmail)])
    + (if |AsString(body.password)| >= MinPasswordLength then []
       else [FieldError("password", ShortPassword)])
  }

  /** The document registration stores: the given name and e-mail, the
      avatar derived from the e-mail with the fixed options, and the salted
      hash in place of the password. */
  function NewUser(id: UserId, name: string, email: string, password: string, salt: string,
                   avatarOf: (string, AvatarOptions) -> string,
                   hash: (string, string) -> string): (u: User)
    ensures u.id == id && u.name == name && u.email == email
    ensures u.avatar == avatarOf(email, AvatarOptions("200", "pg", "mm"))
    ensures u.password == hash(password, salt)
  {
    User(id, name, email, avatarOf(email, AvatarSettings), hash(password, salt))
  }

  /** The handler. A duplicate e-mail, like a validation failure, leaves
      the store untouched; a successful registration appends exactly the
      new user and answers with a token for its id. E-mails stay unique. */
  method Register(store: UserStore, body: RegisterBody, newId: UserId, salt: string,
                  isEmail: string -> bool, avatarOf: (string, AvatarOptions) -> string,
                  hash: (string, string) -> string, sign: (Payload, nat) -> string)
    returns (r: Reply<TokenBody>)
    requires store.Valid()
    modifies store
    ensures store.Valid()
    ensures RegisterErrors(body, isEmail) != [] ==>
              r == Errors(RegisterErrors(body, isEmail)) && store.users == old(store.users)
    ensures RegisterErrors(body, isEmail) == [] && body.email.value in Emails(old(store.users)) ==>
              r == Errors([ErrorItem(None, UserExists)]) && store.users == old(store.users)
    ensures RegisterErrors(body, isEmail) == [] && body.email.value !in Emails(old(store.users))
            && newId in Ids(old(store.users)) ==>
              r == ServerError("Server error") && store.users == old(store.users)
    ensures RegisterErrors(body, isEmail) == [] && body.email.value !in Emails(old(store.users))
            && newId !in Ids(old(store.users)) ==>
              && store.users == old(store.users) + [NewUser(newId, body.name.value, body.email.value,
                                                            body.password.value, salt, avatarOf, hash)]
              && r == Ok(TokenBody(Issue(sign, newId)))
    ensures UniqueEmails(old(store.users)) ==> UniqueEmails(store.users)
  {
    var errs := RegisterErrors(body, isEmail);
    if errs != [] {
      return Errors(errs);
    }
    var name, email, password := body.name.value, body.email.value, body.password.value;
    if IndexOf(Emails(store.users), email) != -1 {
      return Errors([ErrorItem(None, UserExists)]);
    }
    var avatar := avatarOf(email, AvatarSettings);
    var user := User(newId, name, email, avatar, password);
    user := user.(password := hash(password, salt));
    ghost var before := store.users;
    var saved := store.Save(user);
    if !saved {
      return ServerError("Server error");
    }
    FreshEmailKeepsUnique(before, user);
    r := Ok(TokenBody(Issue(sign, user.id)));
  }

  /** Appending a user whose e-mail is not yet taken keeps e-mails unique. */
  lemma FreshEmailKeepsUnique(users: seq<User>, u: User)
    requires u.email !in Emails(users)
    ensures UniqueEmails(users) ==> UniqueEmails(users + [u])
  {
    var s := users + [u];
    if UniqueEmails(users) {
      forall i, j | 0 <= i < j < |s| ensures s[i].email != s[j].email {
        if j == |users| {
          assert Emails(users)[i] == s[i].email;
        }
      }
    }
  }
}
