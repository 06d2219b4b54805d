/**
 * What a request to the remote API can come back with, as the console sees
 * it through axios, and the single-slot alert banner that shows outcomes.
 */
module Http {
  import opened Js

  /** The `status` field of a response body: a string, a boolean, or absent. */
  datatype Status = Text(text: string) | Flag(flag: bool) | NoStatus

  /** `if (status)`: the falsy values are an absent status, `false` and ''. */
  function IsTruthy(st: Status): (b: bool)
    ensures !b <==> st == NoStatus || st == Flag(false) || st == Text("")
  {
    match st
    case Text(t) => t != ""
    case Flag(b) => b
    case NoStatus => false
  }

  /** `status === 'success'`: one text exactly, so no boolean or other text passes. */
  function IsSuccess(st: Status): (b: bool)
    ensures b <==> st.Text? && st.text == "success"
    ensures b ==> IsTruthy(st)
  {
    st == Text("success")
  }

  /** The two success tests the screens use. */
  datatype SuccessTest = StatusIsSuccess | StatusIsTruthy

  predicate Passes(test: SuccessTest, st: Status) {
    match test
    case StatusIsSuccess => IsSuccess(st)
    case StatusIsTruthy => IsTruthy(st)
  }

  /**
   * The strict test is the stronger one: a reply accepted by `=== 'success'`
   * is accepted by the truthiness test, and `status: true` or
   * `status: 'error'` separate them.
   */
  lemma StrictTestIsStronger(st: Status)
    ensures Passes(StatusIsSuccess, st) ==> Passes(StatusIsTruthy, st)
    ensures Passes(StatusIsTruthy, Flag(true)) && !Passes(StatusIsSuccess, Flag(true))
    ensures Passes(StatusIsTruthy, Text("error")) && !Passes(StatusIsSuccess, Text("error"))
  {
  }

  /** The body of an error response (`error.response.data`). */
  datatype ErrorBody = ErrorBody(message: Option<string>, errors: Option<map<string, seq<string>>>)

  /**
   * The outcome of one request: a body (any 2xx), or a thrown error that may
   * carry the server's error body (absent for a transport failure).
   */
  datatype Response<T> = Got(body: T) | Threw(error: Option<ErrorBody>)

  /** The usual body `{ status, message, data }`. */
  datatype Envelope<T> = Envelope(status: Status, message: Option<string>, data: T)

  /** `error.response?.data?.message` */
  function ServerMessage(error: Option<ErrorBody>): (m: Option<string>)
    ensures error.None? ==> m.None?
    ensures error.Some? ==> m == error.value.message
  {
    match error
    case Some(b) => b.message
    case None => None
  }

  datatype AlertKind = Info | Success | Failure

  /**
   * The banner: hidden, or shown with a message and a kind. `showAlert`
   * always replaces whatever is shown; the five-second expiry is not modelled.
   */
  datatype Alert = Hidden | Shown(message: Option<string>, kind: AlertKind)
}
