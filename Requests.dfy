/**
 * What a resource method asks of the generic request builder: a verb, a path, an
 * optional body, the query contributions, and the terminal call that executes it.
 * P is the payload type of the builder (Go's newRequestWithAPI[P, R]); building
 * and executing the request are outside this model.
 */
module Requests {
  import opened Wrappers

  /** The HTTP verbs the builder offers: Get/Getf, Post/Postf, Patch, Delete/Deletef. */
  datatype Verb = GET | POST | PATCH | DELETE

  /** How the request is executed: one value, a whole list, no content, or a paginated iterator. */
  datatype Terminal = Single | Slice | Empty | Iter

  /** The payload type of requests that carry neither a body nor query parameters. */
  datatype EmptyPayload = EmptyPayload

  /** A query contribution: WithParam(key, value), or a payload whose Encode method writes into the query. */
  datatype Param<P> = Pair(key: string, value: string) | Encoder(source: P)

  /**
   * The outcome of calling one API method, before any I/O:
   * an error returned without building a request, a runtime panic, or a request.
   */
  datatype Outcome<P> =
    | Rejected(message: string)
    | Panic
    | Request(verb: Verb, path: string, body: Option<P>, params: seq<Param<P>>, terminal: Terminal)

  /** r is a request with this verb, body, query contributions and terminal (its path is stated separately). */
  ghost predicate Shaped<P>(r: Outcome<P>, verb: Verb, body: Option<P>, params: seq<Param<P>>, terminal: Terminal) {
    r.Request? && r.verb == verb && r.body == body && r.params == params && r.terminal == terminal
  }

  /** WithParams(normalizeParams(ps)...): each supplied parameter value contributes through its encoder, in order. */
  function Encoders<P>(ps: seq<P>): (r: seq<Param<P>>)
    ensures |r| == |ps|
    ensures forall i :: 0 <= i < |ps| ==> r[i] == Encoder(ps[i])
  {
    if |ps| == 0 then [] else [Encoder(ps[0])] + Encoders(ps[1..])
  }

  /** The `if err != nil { return nil, err }` guard: a validation error stops the method before a request is built. */
  function Guarded<P>(err: Option<string>, request: Outcome<P>): (r: Outcome<P>)
    ensures err.Some? ==> r == Rejected(err.value)
    ensures err.None? ==> r == request
  {
    match err
    case Some(message) => Rejected(message)
    case None => request
  }
}
