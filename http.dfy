/** The JSON replies of the Express handlers and middlewares. */
module Http {
  import opened Js

  /** `res.status(status).json({ success, message, data })`. The message is
      named by the handler's own message type `M` rather than spelled out. */
  datatype Response<M, T> = Response(status: nat, success: bool, message: Option<M>, data: Option<T>)

  /** An error reply: `success: false` and a message. */
  function Fail<M, T>(status: nat, m: M): (r: Response<M, T>)
    ensures r.status == status && !r.success && r.message == Some(m) && r.data.None?
  {
    Response(status, false, Some(m), None)
  }

  /** A success reply. */
  function Succeed<M, T>(status: nat, m: Option<M>, data: Option<T>): (r: Response<M, T>)
    ensures r.status == status && r.success && r.message == m && r.data == data
  {
    Response(status, true, m, data)
  }

  /** What a middleware does with a request: pass it on to `next()` with the
      user it attached, or answer it with a status and a message. */
  datatype Gate<M, U> = Next(user: U) | Reject(status: nat, message: M)

  /** `req.query.x ? parseInt(req.query.x) : undefined`: an absent or empty
      query parameter stays undefined, any other is parsed, possibly to NaN. */
  function QueryInt(x: Opt<string>): Opt<Num> {
    if Truthy(x) then Val(ParseInt(x.v)) else Undef
  }

  /** A query parameter written in decimal digits reaches the model as its
      number, zero included; an empty one as undefined. */
  lemma QueryIntOfDigits(n: nat)
    ensures QueryInt(Val(NatToString(n))) == Val(Int(n))
    ensures QueryInt(Val("")) == Undef && QueryInt(Undef) == Undef
  {
    ParseIntOfNatToString(n);
  }
}
