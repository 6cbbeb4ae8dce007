# devconnector API core, modelled in Dafny

This project models the server side of the developer-network API in three
parts:

- the authentication gate that protects private routes, which reads a JSON
  Web Token from the `x-auth-token` header;
- registration (`POST /api/users`), and login with "who am I"
  (`POST /api/auth`, `GET /api/auth`);
- the profile routes (`/api/profile`): reading your own profile or a
  user's profile, creating or updating your profile, deleting the account,
  and adding and removing experience entries.

Each handler is modelled on the state it touches. The `users` and
`profiles` collections are classes (`Models.UserStore`,
`Models.ProfileStore`) that hold a sequence in insertion order, so a
`findOne` returns the first match. The handlers that change a collection
are methods with `modifies` clauses. The handlers that only read are
functions of the collection's contents.

Each reply is a `Http.Reply`:

- a 200 with a typed body;
- a status with `{msg}`;
- a 400 with `{errors: [...]}`;
- a 500 with plain text.

The library calls are function-typed parameters:

- the e-mail validator;
- gravatar's URL builder;
- bcrypt's hash and compare;
- `jwt.sign` and `jwt.verify` with the secret already bound.

The random salt and the ids the database assigns are plain parameters.

The ECMAScript behaviour the handlers depend on is written out in module
`Js`:

- truthiness of body fields;
- `indexOf` returning -1 when absent;
- `splice` with a negative start;
- `unshift`;
- `split` on a one-character separator, keeping empty pieces;
- `trim` over the WhiteSpace and LineTerminator characters.

Properties proved include:

- the gate lets a request through exactly when its token verifies;
- validation fails exactly on the listed fields;
- registering keeps e-mails unique, and logging in with the credentials
  just registered yields a token for the new user;
- an unknown e-mail and a wrong password get the same answer;
- create-or-update leaves each user with at most one profile, and a field
  left out of an update keeps its stored value;
- `split` and `join` are inverses;
- trim is idempotent;
- removing an experience id that is not in the list drops the last entry,
  because `indexOf` gives -1 and `splice(-1, 1)` removes the last element.

`starter/routes/api/profile.js` has no education routes, so the model has
none.

## Model

| member | source | states |
|---|---|---|
| Js.Map | starter/routes/api/profile.js:255-256 | the result has one element per input element, f applied to it, in order |
| Js.IndexOf | starter/routes/api/profile.js:255-257 | the result is -1 exactly when the value is absent; otherwise it is the first position holding the value |
| Js.Splice | starter/routes/api/profile.js:259 | the result is the list with `min(deleteCount, rest)` elements cut out at the normalised start, and nothing else changed |
| Js.SpliceOneAt | starter/routes/api/profile.js:259 | `splice(i, 1)` at a valid index removes exactly element i |
| Js.SpliceMinusOne | starter/routes/api/profile.js:259 | `splice(-1, 1)` removes the last element, and leaves an empty list empty |
| Js.Unshift | starter/routes/api/profile.js:232 | the new element is first and the old list follows unchanged |
| Js.Split | starter/routes/api/profile.js:86 | split always yields at least one piece |
| Js.SplitLength | starter/routes/api/profile.js:86 | split yields one piece per separator plus one, with empty pieces kept |
| Js.SplitPiecesFree | starter/routes/api/profile.js:86 | no piece contains the separator |
| Js.JoinSplit | starter/routes/api/profile.js:86 | joining the pieces with the separator gives back the original string |
| Js.SplitJoin | starter/routes/api/profile.js:86 | splitting a join of separator-free pieces gives back those pieces |
| Js.TrimStart | starter/routes/api/profile.js:86 | the result is a suffix; everything removed is white space; the result does not start with white space |
| Js.TrimEnd | starter/routes/api/profile.js:86 | the result is a prefix; everything removed is white space; the result does not end with white space |
| Js.Trim | starter/routes/api/profile.js:86 | the result is a contiguous slice of the input with only white space before and after it, and neither of its ends is white space |
| Js.TrimIdempotent | starter/routes/api/profile.js:86 | trimming twice is trimming once |
| Http.NotEmptyIsTruthy | starter/routes/api/profile.js:44-49 | the validator's not-empty check passes exactly on the values the handler treats as truthy |
| Tokens.ClaimsFor | starter/routes/api/users.js:83-87 | the signed payload carries exactly the user's id |
| Tokens.Issue | starter/routes/api/users.js:89-92 | the token is the signature of `{user: {id}}` with a lifetime of 360000 seconds |
| Models.CastObjectId | starter/routes/api/profile.js:151-163 | a path parameter casts exactly when it is 24 hex digits of either case or 12 one-byte characters; the cast value is always 24 lower-case hex digits: the digits lower-cased, or the hex spelling of the 12 bytes |
| Models.ByteHex | starter/routes/api/profile.js:153-155 | the hex spelling of a string has two lower-case hex digits per character |
| Models.ByteHexDecodes | starter/routes/api/profile.js:153-155 | each pair of digits in the hex spelling decodes back to the character it came from |
| Models.CastIsCanonical | starter/routes/api/profile.js:153-155 | casting a cast value gives it back unchanged |
| Models.WithoutId | starter/routes/api/profile.js:180 | removing by id takes out one user when some user has the id and changes nothing otherwise; no user is added |
| Models.WithoutOwner | starter/routes/api/profile.js:178 | removing by owner takes out one profile when the user owns one and changes nothing otherwise; no profile is added |
| Models.WithoutIdKeepsUnique | starter/routes/api/profile.js:180 | removing a user keeps ids and e-mails unique |
| Models.WithoutIdRemovesAll | starter/routes/api/profile.js:180 | with unique ids, removing by id leaves no user with that id and keeps every other user |
| Models.WithoutOwnerRemovesAll | starter/routes/api/profile.js:178 | with unique owners, removing a profile leaves none for that user, keeps every other profile, and keeps owners unique |
| Models.ReplaceKeepsOwners | starter/routes/api/profile.js:103-107 | writing back a profile with the same owner changes no owner and keeps owners unique |
| Models.InsertFreshOwnerKeepsUnique | starter/routes/api/profile.js:114-117 | inserting a profile for a user who has none keeps owners unique |
| Models.UserStore.Save | starter/routes/api/users.js:79 | saving appends the user exactly when its id is not already taken; otherwise the collection is unchanged; ids stay unique |
| Models.UserStore.FindOneAndRemove | starter/routes/api/profile.js:180 | the first user with the id is removed; ids stay unique |
| Models.ProfileStore.Insert | starter/routes/api/profile.js:117 | the new profile is appended |
| Models.ProfileStore.Replace | starter/routes/api/profile.js:103-107 | only the i-th profile is replaced |
| Models.ProfileStore.FindOneAndRemove | starter/routes/api/profile.js:178 | the first profile owned by the user is removed |
| AuthMiddleware.Decide | starter/middleware/auth.js:6-24 | 401 "No token" exactly when the header is absent or empty; 401 "Token is not valid" exactly when a present token fails to verify; the request passes exactly when it verifies |
| AuthMiddleware.Authenticate | starter/middleware/auth.js:6-24 | the gate does what Decide says; on pass, `req.user` is the decoded payload's user; on reject, it is untouched |
| AuthMiddleware.GateIsTotal | starter/middleware/auth.js:11-23 | every request is either answered with a 401 or passed on, never both |
| AuthMiddleware.OnlyTokenHeaderMatters | starter/middleware/auth.js:8 | two requests with the same `x-auth-token` get the same decision |
| AuthMiddleware.IssuedTokenPasses | starter/middleware/auth.js:16-20 | a token issued for an id, which verifies to what was signed, passes the gate and attaches that id |
| UsersRoute.RegisterErrors | starter/routes/api/users.js:19-34 | exactly one item per failing check, in declaration order (name, email, password): none exactly when the name is non-empty, the e-mail is valid and the password has at least 6 characters |
| UsersRoute.NewUser | starter/routes/api/users.js:51-75 | the stored user has the given name and e-mail, the gravatar with options s=200, r=pg, d=mm, and the salted hash instead of the password |
| UsersRoute.Register | starter/routes/api/users.js:16-104 | a validation error or a taken e-mail leaves the collection unchanged; a colliding id gives a 500; otherwise exactly the new user is appended and a token for its id is returned; e-mails stay unique |
| UsersRoute.FreshEmailKeepsUnique | starter/routes/api/users.js:40-47 | appending a user whose e-mail is free keeps e-mails unique |
| AuthRoute.Me | starter/routes/api/auth.js:14-22 | always 200; the body is null exactly when the id has no user; otherwise it is that user without the password |
| AuthRoute.Public | starter/routes/api/auth.js:16 | `select("-password")` keeps the id, name, e-mail and avatar as stored |
| AuthRoute.MeIgnoresPasswords | starter/routes/api/auth.js:16-17 | two collections that differ only in the stored hashes get the same reply, so the password never reaches the reply |
| AuthRoute.LoginErrors | starter/routes/api/auth.js:30-37 | exactly one item per failing check, e-mail first: none exactly when the e-mail is valid and a password is present (even an empty one) |
| AuthRoute.Login | starter/routes/api/auth.js:39-77 | validation errors are returned as they are; an unknown e-mail gets "Invalid credentials"; a token is returned only for a user with that e-mail whose hash matches |
| AuthRoute.UnknownEmailLikeWrongPassword | starter/routes/api/auth.js:43-60 | an unknown e-mail and a wrong password get the same reply |
| AuthRoute.LoginSucceedsIff | starter/routes/api/auth.js:43-77 | with unique e-mails, login succeeds exactly when the e-mail's user has a matching hash, and the token is for that user |
| AuthRoute.RegisterThenLogin | starter/routes/api/auth.js:43-77 | after registering, logging in with the same e-mail and password yields a token for the new id |
| ProfileRoute.MyProfile | starter/routes/api/profile.js:15-31 | 200 with the caller's profile exactly when one exists; otherwise 400 "No profile for this user" |
| ProfileRoute.ProfileOfUser | starter/routes/api/profile.js:151-166 | 200 exactly when the parameter casts to an id that owns a profile; a malformed id and a missing profile both get 400 "Profile not found" |
| ProfileRoute.ProfileErrors | starter/routes/api/profile.js:44-58 | exactly one item per failing check, status first: none exactly when status and skills are non-empty |
| ProfileRoute.NormalizeSkills | starter/routes/api/profile.js:85-87 | one entry per comma plus one; no entry holds a comma or starts or ends with white space |
| ProfileRoute.NormalizeSkillsEntry | starter/routes/api/profile.js:86 | entry i of the normalised skills is piece i of the comma split, trimmed |
| ProfileRoute.NormalizeThreePieces | starter/routes/api/profile.js:86 | a string that splits into three pieces normalises to those three pieces trimmed |
| ProfileRoute.PatchFor | starter/routes/api/profile.js:75-95 | the patch holds the user, exactly the truthy text fields with their values, skills exactly when truthy (normalised), and exactly the truthy social links |
| ProfileRoute.TextStep | starter/routes/api/profile.js:78-83 | considering one more text field adds it exactly when it is truthy |
| ProfileRoute.SocialStep | starter/routes/api/profile.js:90-95 | considering one more social link adds it exactly when it is truthy |
| ProfileRoute.BuildText | starter/routes/api/profile.js:78-83 | the field-by-field assignments give exactly the truthy text fields |
| ProfileRoute.BuildSocial | starter/routes/api/profile.js:90-95 | the link-by-link assignments give exactly the truthy social links |
| ProfileRoute.BuildPatch | starter/routes/api/profile.js:75-95 | the built `profileFields` is PatchFor |
| ProfileRoute.ApplySet | starter/routes/api/profile.js:103-107 | keys in the patch overwrite; other text fields and skills keep their stored values; social is replaced whole; experience is untouched |
| ProfileRoute.NewProfile | starter/routes/api/profile.js:114 | a new profile has the patch's user, text fields and social links, its skills or none, and no experience |
| ProfileRoute.CreateIsSetOnEmpty | starter/routes/api/profile.js:114 | creating a profile is the same as setting the patch on an empty profile |
| ProfileRoute.ApplySetIdempotent | starter/routes/api/profile.js:103-107 | setting the same patch twice is setting it once |
| ProfileRoute.OmittedFieldSurvives | starter/routes/api/profile.js:78-107 | a text field left out of the body keeps its stored presence and value after an update |
| ProfileRoute.SocialReplacedWholesale | starter/routes/api/profile.js:90-107 | an update without any social link empties the stored links |
| ProfileRoute.CreateOrUpdate | starter/routes/api/profile.js:39-126 | errors leave the store unchanged; an existing profile gets the patch set on it in place; otherwise a new profile is appended; afterwards the caller owns a profile; owners stay unique |
| ProfileRoute.DeleteAccount | starter/routes/api/profile.js:174-186 | the profile is removed first, then the user; a failure of either removal gives a 500, with the profile removal kept when it is the user removal that fails |
| ProfileRoute.DeletedProfileNotFound | starter/routes/api/profile.js:178 | after the profile is removed, GET /me answers 400 "No profile for this user" |
| ProfileRoute.DeletedUserUnknown | starter/routes/api/profile.js:180 | after the user record is removed, GET /api/auth for that id answers a JSON null |
| ProfileRoute.ExperienceErrors | starter/routes/api/profile.js:199-207 | exactly one item per failing check, in declaration order (title, company, from): none exactly when all three are non-empty |
| ProfileRoute.NewExperience | starter/routes/api/profile.js:220-228 | the new entry has the assigned id and exactly the seven body fields; title, company and from are non-empty |
| ProfileRoute.AddExperience | starter/routes/api/profile.js:194-242 | errors leave the store unchanged; a caller without a profile gets a 500; otherwise the new entry is put first in the caller's profile and nothing else changes |
| ProfileRoute.NewestExperienceFirst | starter/routes/api/profile.js:232 | after two additions the newer entry comes first |
| ProfileRoute.RemoveExperience | starter/routes/api/profile.js:255-259 | removing by id leaves one entry fewer, unless the list is empty, and adds no entry |
| ProfileRoute.RemoveMatchingExperience | starter/routes/api/profile.js:255-259 | when the id is present, exactly its first occurrence is removed and the order is kept |
| ProfileRoute.RemoveMissingExperience | starter/routes/api/profile.js:255-259 | when the id is absent, the last entry is removed, and an empty list stays empty |
| ProfileRoute.DeleteExperience | starter/routes/api/profile.js:250-267 | a caller without a profile gets a 500; otherwise only the caller's experience list changes, to the spliced list |
| ProfileRoute.SkillsExampleSplit | starter/routes/api/profile.js:86 | "node, react,  express" splits into "node", " react" and "  express" |
| ProfileRoute.SkillsExampleTrim | starter/routes/api/profile.js:86 | those three pieces trim to "node", "react" and "express" |
| ProfileRoute.SkillsExample | starter/routes/api/profile.js:85-87 | "node, react,  express" normalises to ["node", "react", "express"] |

## Left out

- The database connection (`starter/config/db.js`) is not part of this model. The engine's queries, indexes and the `populate` joins of user names and avatars are not modelled either: a profile's `user` is its owner's id.
- `GET /api/profile`, which lists all profiles, is not modelled. It only reads and populates.
- Education routes: the code has none.
- Token expiry, clocks and the signature algorithm are not modelled. `verify` is a parameter, and None stands for every way it throws.
- Concurrency is not modelled. Each handler runs alone, so the race between the e-mail check and the insert in registration is not captured.
- The ids in tokens are assumed well-formed: `req.user.id` is used without a cast. A malformed one would make the database throw a cast error, which becomes a 500.
- Models.CastObjectId: a 12-character parameter that holds a character outside ASCII is a cast error here. How the database driver treats such a string depends on its version, so the model does not promise a lookup for it.
- ProfileRoute.AddExperience: experience dates are kept as the strings that were sent, because the profile schema is not part of this model. If the schema types `from` and `to` as dates, a string that does not parse passes validation but makes `profile.save()` throw, and the handler answers 500; the model stores the entry and answers 200.
- Non-string body values (numbers, arrays, objects) are not modelled. Every body field is a string or absent, and `current` is a boolean or absent.
- UsersRoute.RegisterErrors, AuthRoute.LoginErrors, ProfileRoute.ProfileErrors and ProfileRoute.ExperienceErrors: the request is modelled as its body alone. The validator's `check(field)` also finds a field in the cookies, headers, route parameters and query string, while the handlers then read only the body. A field supplied outside the body therefore passes validation in the code but is absent for the handler, and the model does not capture that case. For example, a login whose password is only in the query string gets a 500 from the code and a 400 from the model.
- The `value` and `location` fields of the validator's error items are not modelled. Each item keeps only the field name and the message.
- The 500s that only a database failure can cause are not modelled: a failed lookup in the read-only routes, and a failed save in create-or-update and in the experience routes. The modelled 500s are these:
  - a missing profile in the experience routes;
  - an id collision in registration;
  - the two removal failures of account deletion.
- AuthMiddleware.Authenticate: an exception thrown by `next()` itself is not modelled. It would be caught by the gate's own handler and answered with "Token is not valid".
- ProfileRoute.CreateOrUpdate: a verified token whose payload has no user leaves `req.user` undefined. Reading its id then throws outside the handler's try block. The model assumes every private handler receives an id.
- UsersRoute.Register: a failure inside the `jwt.sign` callback is not modelled. The sign function always yields a token.
- AuthRoute.Login: a failure inside the `jwt.sign` callback is not modelled. The sign function always yields a token.
