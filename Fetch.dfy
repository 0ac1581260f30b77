/**
 * What a client form sees of its `fetch` call. The network, the route behind
 * it and the time the call takes are outside the model: the form's code before
 * the `await` is one step, and the code after it is a second step that
 * receives the outcome.
 */
module Fetch {
  import opened Wrappers

  /** `m || fallback` on an optional string: absent and empty both fall back. */
  function OrElse(m: Option<string>, fallback: string): (r: string)
    ensures fallback != "" ==> r != ""
    ensures m.Some? && m.value != "" ==> r == m.value
    ensures m.None? || m.value == "" ==> r == fallback
  {
    if m.Some? && m.value != "" then m.value else fallback
  }

  /** `m ?? fallback`: only an absent value falls back. */
  function Nullish(m: Option<string>, fallback: string): (r: string)
    ensures m.Some? ==> r == m.value
  {
    m.GetOr(fallback)
  }

  /** The body of a response: JSON with an optional `message` and `url`, or
      text that `res.json()` refuses (with that error's message). */
  datatype Payload =
    | Parsed(message: Option<string>, url: Option<string>)
    | Unparseable(error: Option<string>)

  /** A fetch that rejects (a network error), or a response and its status. */
  datatype Outcome =
    | Rejected(error: Option<string>)
    | Resolved(ok: bool, payload: Payload)

  /** For a form that awaits `fetch`, then `res.json()`, then throws
      `new Error(json?.message || notOk)` on a status that is not ok: None
      when the call went through, otherwise the message of the error its
      `catch` receives. */
  function Caught(o: Outcome, notOk: string): (r: Option<Option<string>>)
    ensures r.None? <==> o.Resolved? && o.ok && o.payload.Parsed?
    ensures o.Rejected? ==> r == Some(o.error)
    ensures o.Resolved? && o.payload.Unparseable? ==> r == Some(o.payload.error)
    ensures o.Resolved? && !o.ok && o.payload.Parsed? ==>
      r == Some(Some(OrElse(o.payload.message, notOk)))
  {
    match o
    case Rejected(e) => Some(e)
    case Resolved(ok, Unparseable(e)) => Some(e)
    case Resolved(ok, Parsed(m, _)) => if ok then None else Some(Some(OrElse(m, notOk)))
  }
}
