/** Records exchanged with the check-in API, and the shape of a network answer. */
module Api {

  datatype Option<+T> = None | Some(value: T)

  /** An attendee as the API returns it. A missing field, `undefined` and `null`
      are all `None`. */
  datatype Attendee = Attendee(
    id: string,
    name: string,
    email: Option<string>,
    document: Option<string>,
    checkedInAt: Option<string>)

  /** One page of the attendee roster. */
  datatype AttendeesResponse = AttendeesResponse(
    data: seq<Attendee>,
    page: int,
    limit: int,
    total: int)

  /** What the server answers to a check-in. */
  datatype CheckinResponse = CheckinResponse(attendeeId: string, checkedInAt: string)

  /** The outcome of one HTTP call: a decoded 2xx body, a non-2xx answer (the
      error thrown then carries the status), or a failure that carries no status
      at all (network down, body that is not JSON). */
  datatype Response<+T> = Ok(body: T) | HttpError(status: int) | TransportError

  /** The HTTP status the server uses for "already checked in". */
  const Conflict: int := 409

  /** The conflict test on a failed request: only an HTTP error carries a status. */
  predicate IsConflict<T>(r: Response<T>)
    ensures IsConflict(r) ==> !r.Ok? && !r.TransportError?
    ensures IsConflict(r) <==> match r case HttpError(s) => s == 409 case _ => false
  {
    r.HttpError? && r.status == Conflict
  }

  /** JavaScript truthiness of an optional string: `undefined`, `null` and `""`
      are falsy, every other string is truthy. */
  predicate Truthy(s: Option<string>)
    ensures Truthy(s) <==> s != None && s != Some("")
    ensures Truthy(s) ==> |s.value| > 0
  {
    s.Some? && s.value != ""
  }

  /** An attendee reads as present exactly when `checkedInAt` is truthy. */
  predicate Present(a: Attendee)
    ensures Present(a) <==> a.checkedInAt !in {None, Some("")}
  {
    Truthy(a.checkedInAt)
  }
}
