/** The response shapes the handlers send. Each route answers with exactly
    one reply; the body schemas are explicit instead of loose JSON. */
module Http {
  import opened Js

  /** One item of `{errors: [...]}`: the validator names the offending
      field, a handler-built item (such as "User already exists") has only
      a message. */
  datatype ErrorItem = ErrorItem(param: Option<string>, msg: string)

  /** `{msg: ...}` */
  datatype Message = Message(msg: string)

  /** `{token: ...}` */
  datatype TokenBody = TokenBody(token: string)

  datatype Reply<+T> =
    | Ok(body: T)                          // 200 with a JSON body
    | Fail(status: nat, msg: string)       // status with `{msg}`
    | Errors(errors: seq<ErrorItem>)       // 400 with `{errors: [...]}`
    | ServerError(text: string)            // 500 with a plain-text body

  /** A validation error the validator reports for field `param`. */
  function FieldError(param: string, msg: string): ErrorItem {
    ErrorItem(Some(param), msg)
  }

  /** express-validator's view of a field: undefined reads as "". */
  function AsString(v: Option<string>): string {
    v.GetOr("")
  }

  /** `not().isEmpty()` / `notEmpty()` pass exactly on truthy strings. */
  lemma NotEmptyIsTruthy(v: Option<string>)
    ensures AsString(v) != "" <==> Truthy(v)
  {
  }
}
