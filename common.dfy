/** Shared vocabulary of the model: optional values, record ids, clock readings,
    the replies a request handler produces, and the first-match lookup that a
    MongoDB `findOne` performs over a collection in its natural order. */
module Common {

  /** A JavaScript value that may be `undefined` (or `null`). */
  datatype Option<+T> = None | Some(value: T)

  /** A MongoDB ObjectId, in its hexadecimal text form. */
  type Id = string

  /** A clock reading in milliseconds since the epoch, as `Date.now()` returns it. */
  type Time = int

  /** JavaScript truthiness of an optional string: `undefined` and `""` are falsy. */
  predicate Present(o: Option<string>)
  {
    o.Some? && o.value != ""
  }

  /** JavaScript truthiness of an optional number: `undefined` and `0` are falsy. */
  predicate Truthy(o: Option<int>)
  {
    o.Some? && o.value != 0
  }

  /** An exception other than `apiError` that escapes a handler: a dereference of
      `undefined`, a schema validation or cast failure at `create`/`save`, a
      unique-index violation, or a failed e-mail delivery. */
  datatype Fault = TypeError | ValidationError | DuplicateKey | MailFailure

  /** What a request handler ends with. */
  datatype Reply =
    | Respond(status: int, message: string)  // res.status(status).json({ message, ... })
    | Raise(status: int, message: string)    // throw new apiError(status, message)
    | Crash(fault: Fault)                    // any other exception

  /** A reply that reports success to the client. */
  predicate Succeeded(r: Reply)
  {
    r.Respond? && 200 <= r.status < 300
  }

  /** The result of a Mongoose `create`/`save`: the stored document or the fault it raised. */
  datatype Saved<+T> = Stored(doc: T) | Rejected(fault: Fault)

  /** The index of the first element satisfying `p`, as `findOne` returns the
      first matching document of a collection in natural order. */
  function FindFirst<T>(s: seq<T>, p: T -> bool): (r: Option<nat>)
    ensures r.Some? ==> r.value < |s| && p(s[r.value])
    ensures r.Some? ==> forall j :: 0 <= j < r.value ==> !p(s[j])
    ensures r.None? ==> forall j :: 0 <= j < |s| ==> !p(s[j])
  {
    if s == [] then None
    else if p(s[0]) then Some(0)
    else
      match FindFirst(s[1..], p)
      case None => None
      case Some(k) => Some(k + 1)
  }

  /** The elements satisfying `p`, in their original order, as `find` returns them. */
  function Filter<T(==,!new)>(s: seq<T>, p: T -> bool): (r: seq<T>)
    ensures |r| <= |s|
    ensures forall x :: x in r <==> x in s && p(x)
  {
    if s == [] then []
    else if p(s[0]) then [s[0]] + Filter(s[1..], p)
    else Filter(s[1..], p)
  }

  /** Payloads the payment gateway posts to the webhook endpoints.  Only the
      fields the handlers read are modelled; each may be absent. */
  datatype InvoiceCallback = InvoiceCallback(
    id: Option<string>,
    externalId: Option<string>,
    status: Option<string>,
    paidAt: Option<string>)

  datatype DisbursementCallback = DisbursementCallback(
    id: Option<string>,
    status: Option<string>,
    amount: int)
}
