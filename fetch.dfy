/**
 * The outcome of one HTTP request, given as an input, and the decisions every
 * request site makes on it: whether the envelope counts as a success, which
 * error message results otherwise, and the one-level `flat()` applied to
 * list payloads.
 */
module Fetch {
  import opened Wrappers
  import opened Text
  import opened Types

  /**
   * What a request produced: either it threw with the error's message, or a
   * response came back with its `ok` flag, its status code and its body. The
   * request throws when the network fails, or when the site parses a body that
   * is not JSON. A site that never reads the body of a non-ok response gets
   * `Received(false, status, _)` for such a response, whatever its body.
   */
  datatype Reply<B> = Thrown(message: string) | Received(ok: bool, status: int, body: B)

  /** An element of a payload that `flat()` flattens: a nested array or a single record. */
  datatype Nested<T> = Item(item: T) | Group(items: seq<T>)

  function Elements<T>(n: Nested<T>): seq<T>
  {
    match n
    case Item(x) => [x]
    case Group(xs) => xs
  }

  /** `Array.prototype.flat()` with depth one. */
  function Flatten<T>(xs: seq<Nested<T>>): seq<T>
  {
    if xs == [] then [] else Elements(xs[0]) + Flatten(xs[1..])
  }

  function TotalSize<T>(xs: seq<Nested<T>>): nat
  {
    if xs == [] then 0 else |Elements(xs[0])| + TotalSize(xs[1..])
  }

  /** The flattened list is as long as all the inner lists together. */
  lemma {:induction false} FlattenLength<T>(xs: seq<Nested<T>>)
    ensures |Flatten(xs)| == TotalSize(xs)
  {
    if xs != [] {
      FlattenLength(xs[1..]);
    }
  }

  /** Flattening distributes over concatenation of the outer list. */
  lemma {:induction false} FlattenAppend<T>(xs: seq<Nested<T>>, ys: seq<Nested<T>>)
    ensures Flatten(xs + ys) == Flatten(xs) + Flatten(ys)
  {
    if xs == [] {
      assert xs + ys == ys;
    } else {
      assert (xs + ys)[1..] == xs[1..] + ys;
      FlattenAppend(xs[1..], ys);
    }
  }

  /** A record is in the flattened list exactly when it is in one of the inner lists. */
  lemma {:induction false} FlattenMembership<T>(xs: seq<Nested<T>>, x: T)
    ensures x in Flatten(xs) <==> exists i :: 0 <= i < |xs| && x in Elements(xs[i])
  {
    if xs != [] {
      FlattenMembership(xs[1..], x);
      assert forall i :: 0 < i < |xs| ==> xs[i] == xs[1..][i - 1];
      if x in Flatten(xs[1..]) {
        var i :| 0 <= i < |xs[1..]| && x in Elements(xs[1..][i]);
        assert x in Elements(xs[i + 1]);
      }
    }
  }

  /** A payload without nested arrays flattens to its own records. */
  lemma {:induction false} FlattenOfItems<T>(xs: seq<Nested<T>>)
    requires forall i :: 0 <= i < |xs| ==> xs[i].Item?
    ensures Flatten(xs) == seq(|xs|, i requires 0 <= i < |xs| => xs[i].item)
  {
    if xs != [] {
      FlattenOfItems(xs[1..]);
    }
  }

  /** JavaScript's `a || b` on strings: `a` unless it is empty. */
  function OrElse(a: string, b: string): (r: string)
    ensures a != "" ==> r == a
    ensures a == "" ==> r == b
    ensures r != "" <==> a != "" || b != ""
  {
    if a != "" then a else b
  }

  /** The message thrown for a response whose `ok` flag is false. */
  function HttpErrorText(status: int): (r: string)
    ensures r != ""
  {
    "HTTP error! Status: " + IntToDecimal(status)
  }

  /** The response was ok, its envelope says `success`, and `data` is present. */
  predicate Delivered<T>(reply: Reply<ApiResponse<T>>)
  {
    reply.Received? && reply.ok && reply.body.success && reply.body.data.Some?
  }

  /**
   * The try/catch shared by every request site that reads an envelope:
   * a thrown error surfaces with its own message or `fallbackText`; a non-ok
   * response throws the body's `message` (when the site reads the error body)
   * or an HTTP status text; an ok response whose envelope is not a success with
   * data throws `invalidText`; otherwise the data is the result.
   */
  function EnvelopeResult<T>(reply: Reply<ApiResponse<T>>, readsErrorBody: bool,
                             invalidText: string, fallbackText: string): (r: Result<T, string>)
    requires invalidText != "" && fallbackText != ""
    ensures r.Ok? <==> Delivered(reply)
    ensures r.Ok? ==> r.value == reply.body.data.value
    ensures r.Err? ==> r.error != ""
    ensures reply.Thrown? ==> r.error == OrElse(reply.message, fallbackText)
    ensures reply.Received? && !reply.ok && readsErrorBody ==>
              r.error == OrElse(reply.body.message, HttpErrorText(reply.status))
    ensures reply.Received? && !reply.ok && !readsErrorBody ==> r.error == HttpErrorText(reply.status)
    ensures reply.Received? && reply.ok && !Delivered(reply) ==> r.error == invalidText
  {
    match reply
    case Thrown(m) => Err(OrElse(m, fallbackText))
    case Received(ok, status, body) =>
      if !ok then Err(OrElse(if readsErrorBody then body.message else "", HttpErrorText(status)))
      else if body.success && body.data.Some? then Ok(body.data.value)
      else Err(invalidText)
  }

  /** A list request: the envelope decision, then `flat()` on the delivered payload. */
  function ListResult<T>(reply: Reply<ApiResponse<seq<Nested<T>>>>, readsErrorBody: bool,
                         invalidText: string, fallbackText: string): (r: Result<seq<T>, string>)
    requires invalidText != "" && fallbackText != ""
    ensures r.Ok? <==> Delivered(reply)
    ensures r.Ok? ==> r.value == Flatten(reply.body.data.value)
    ensures r.Err? ==> r.error == EnvelopeResult(reply, readsErrorBody, invalidText, fallbackText).error
  {
    match EnvelopeResult(reply, readsErrorBody, invalidText, fallbackText)
    case Ok(nested) => Ok(Flatten(nested))
    case Err(e) => Err(e)
  }

  /**
   * A list refetch whose errors are swallowed: the list it sets on success, or
   * the current list when nothing is set.
   */
  function Refetched<T>(current: seq<T>, reply: Reply<ApiResponse<seq<Nested<T>>>>): (r: seq<T>)
    ensures Delivered(reply) ==> r == Flatten(reply.body.data.value)
    ensures !Delivered(reply) ==> r == current
  {
    if Delivered(reply) then Flatten(reply.body.data.value) else current
  }
}
