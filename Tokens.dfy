/** The identity token: a signed envelope around `{user: {id}}` valid for
    360000 seconds. Signing and verification are cryptography and stay
    abstract: a handler receives `sign` (the secret already bound), the
    auth gate receives `verify`. */
module Tokens {
  import opened Js

  /** `{id}`, the identity the gate attaches to the request. */
  datatype Identity = Identity(id: string)

  /** A decoded payload. A token issued here always carries a user, but a
      token signed elsewhere with the same secret need not. */
  datatype Payload = Payload(user: Option<Identity>)

  /** `expiresIn`, in seconds: 100 hours. */
  const ExpiresIn: nat := 360000

  /** The payload both registration and login sign: exactly `{user: {id}}`. */
  function ClaimsFor(id: string): (p: Payload)
    ensures p.user == Some(Identity(id))
  {
    Payload(Some(Identity(id)))
  }

  /** `jwt.sign(payload, secret, {expiresIn: 360000})`: the token signs the
      payload `{user: {id}}` with a lifetime of 360000 seconds. */
  function Issue(sign: (Payload, nat) -> string, id: string): (t: string)
    ensures t == sign(Payload(Some(Identity(id))), 360000)
  {
    sign(ClaimsFor(id), ExpiresIn)
  }
}
