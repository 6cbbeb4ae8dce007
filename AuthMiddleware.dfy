/** The auth gate put in front of private routes: read the token from the
    `x-auth-token` header, reject a request without one or with one that
    does not verify, and otherwise attach the decoded user to the request
    and pass it on. `verify` is `jwt.verify` with the secret bound: None
    stands for the exception it throws on a malformed, expired or forged
    token. */
module AuthMiddleware {
  import opened Js
  import opened Tokens

  /** The one header the gate reads (header names arrive lower-cased). */
  const TokenHeader: string := "x-auth-token"
  const NoTokenMsg: string := "No token. Authorization denied"
  const BadTokenMsg: string := "Token is not valid"

  /** What the gate does with a request: answer it, or call `next`. */
  datatype Outcome = Reject(status: nat, msg: string) | Next

  /** `req.header(name)`. */
  function Header(headers: map<string, string>, name: string): Option<string> {
    if name in headers then Some(headers[name]) else None
  }

  /** The gate's decision on a request with these headers. */
  function Decide(headers: map<string, string>, verify: string -> Option<Payload>): (o: Outcome)
    ensures o == Reject(401, NoTokenMsg) <==> !Truthy(Header(headers, TokenHeader))
    ensures o == Reject(401, BadTokenMsg) <==>
              Truthy(Header(headers, TokenHeader)) && verify(headers[TokenHeader]).None?
    ensures o == Next <==> Truthy(Header(headers, TokenHeader)) && verify(headers[TokenHeader]).Some?
  {
    var token := Header(headers, TokenHeader);
    if !Truthy(token) then Reject(401, NoTokenMsg)
    else if verify(token.value).None? then Reject(401, BadTokenMsg)
    else Next
  }

  /** The part of a request the gate touches. */
  class Request {
    const headers: map<string, string>
    var user: Option<Identity>

    constructor (headers: map<string, string>)
      ensures this.headers == headers && user == None
    {
      this.headers := headers;
      user := None;
    }
  }

  /** The middleware. On Next, `req.user` is `decoded.user` (which is
      undefined for a payload without a user); on a rejection it is left
      alone. */
  method Authenticate(req: Request, verify: string -> Option<Payload>) returns (o: Outcome)
    modifies req`user
    ensures o == Decide(req.headers, verify)
    ensures o.Next? ==> req.user == verify(req.headers[TokenHeader]).value.user
    ensures o.Reject? ==> req.user == old(req.user)
  {
    var token := Header(req.headers, TokenHeader);
    if !Truthy(token) {
      return Reject(401, NoTokenMsg);
    }
    var decoded := verify(token.value);
    if decoded.None? {
      return Reject(401, BadTokenMsg);
    }
    req.user := decoded.value.user;
    o := Next;
  }

  /** Every request is either answered with a 401 or passed on, never both. */
  lemma GateIsTotal(headers: map<string, string>, verify: string -> Option<Payload>)
    ensures var o := Decide(headers, verify);
            (o.Reject? && o.status == 401 && (o.msg == NoTokenMsg || o.msg == BadTokenMsg)) != o.Next?
  {
  }

  /** Only the `x-auth-token` header matters. */
  lemma OnlyTokenHeaderMatters(h1: map<string, string>, h2: map<string, string>,
                               verify: string -> Option<Payload>)
    requires Header(h1, TokenHeader) == Header(h2, TokenHeader)
    ensures Decide(h1, verify) == Decide(h2, verify)
  {
  }

  /** A token issued for `id` by a signer whose tokens verify to what was
      signed lets its bearer through as `{id}`. */
  lemma IssuedTokenPasses(sign: (Payload, nat) -> string, verify: string -> Option<Payload>,
                          id: string, headers: map<string, string>)
    requires Header(headers, TokenHeader) == Some(Issue(sign, id))
    requires Issue(sign, id) != ""
    requires verify(Issue(sign, id)) == Some(ClaimsFor(id))
    ensures Decide(headers, verify) == Next
    ensures verify(headers[TokenHeader]).value.user == Some(Identity(id))
  {
  }
}
