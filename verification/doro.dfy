/** The `doro` command handler (`MyPlugin.doro`) as one step of a state machine:
    the cooldown gate, the single fetch, the interpretation of its body, the
    `except` chain, and the `finally` that records the completion time. */
module Doro {
  import opened Wrappers
  import opened PyJson
  import opened Cooldown

  /** The texts the handler sends. The wording is not modelled, only which text it is. */
  datatype Text =
    | Wait(remaining: real)      // please wait, `remaining` seconds left
    | NoSticker                  // no sticker obtained, try again later
    | ApiFailed                  // the API reported failure
    | StatusFailed(status: int)  // the request failed with this HTTP status code
    | NetworkFailed              // the request failed, check the network or the API
    | UnknownFailed(cause: Exc)  // an unknown error occurred

  /** A reply yielded by the handler: a plain text, or an image built from the sticker URL. */
  datatype Reply = Plain(text: Text) | Image(url: Json)

  /** What the GET, `raise_for_status` and `response.json()` produce together
      when they return or raise an `Exception`: the decoded body, or the exception. */
  type Attempt = Result<Json, Exc>

  /** What issuing the request leads to. `Interrupted` is a `BaseException`
      outside `Exception` (task cancellation at the `await`, a keyboard
      interrupt): no `except` clause catches it, only the `finally` runs,
      and it propagates out of the handler. */
  datatype Fetch = Completed(attempt: Attempt) | Interrupted

  /** The rest of the `try` body, once the body is decoded: read `success`
      (default false), and on a truthy flag read `sticker.url`. Its own reads
      only raise errors of the generic `except` clause, never an HTTP status
      or request error. */
  function Interpret(data: Json): (r: Result<Reply, Exc>)
    ensures r.Failure? ==> r.error.AttributeError? || r.error.KeyError? || r.error.TypeError?
    ensures !data.JObj? ==> r == Failure(AttributeError)
    ensures r.Success? && r.value.Image? ==> Truthy(r.value.url)
  {
    var success :- Get(data, "success", JBool(false));
    if Truthy(success) then
      var sticker :- Subscript(data, "sticker");
      var url :- Subscript(sticker, "url");
      Success(if Truthy(url) then Image(url) else Plain(NoSticker))
    else
      Success(Plain(ApiFailed))
  }

  /** The `except` clauses, tried in order: HTTP status, request, anything else. */
  function Except(e: Exc): (r: Reply)
    ensures r.Plain? && !r.text.Wait?
    ensures r.text.StatusFailed? <==> e.HttpStatusError?
    ensures r.text.NetworkFailed? <==> e.RequestError?
    ensures r.text.UnknownFailed? <==> !e.HttpStatusError? && !e.RequestError?
  {
    match e
    case HttpStatusError(status) => Plain(StatusFailed(status))
    case RequestError => Plain(NetworkFailed)
    case _ => Plain(UnknownFailed(e))
  }

  /** The one reply of an invocation whose request completed: whatever the
      fetch or the body raises is caught by the `except` chain. */
  function Respond(attempt: Attempt): (r: Reply)
    ensures r.Plain? ==> !r.text.Wait?
    ensures r.Image? ==> Truthy(r.url)
  {
    match attempt
    case Failure(e) => Except(e)
    case Success(data) =>
      match Interpret(data)
      case Success(reply) => reply
      case Failure(e) => Except(e)
  }

  /** The outcome of one invocation: the new state, the replies yielded in
      order, and whether the HTTP request was issued. */
  datatype Step = Step(plugin: Plugin, replies: seq<Reply>, fetched: bool)

  /** One invocation of the command. `now` is the clock read by the gate,
      `fetch` what the request leads to if it is issued, and `doneAt` the clock
      read by the `finally` clause. */
  function Invoke(p: Plugin, now: real, fetch: Fetch, doneAt: real): (r: Step)
    ensures |r.replies| == (if r.fetched && fetch.Interrupted? then 0 else 1)
    ensures r.plugin.period == p.period
    ensures r.fetched <==> !IsOnCooldown(p, now).onCooldown
    ensures !r.fetched ==> r.plugin == p
    ensures !r.fetched ==> r.replies[0].Plain? && r.replies[0].text.Wait? && r.replies[0].text.remaining > 0.0
    ensures r.fetched ==> r.plugin.lastCalled == doneAt
    ensures r.fetched && fetch.Completed? ==> r.replies == [Respond(fetch.attempt)]
  {
    var gate := IsOnCooldown(p, now);
    if gate.onCooldown then
      Step(p, [Plain(Wait(gate.remaining))], false)
    else
      match fetch
      case Completed(attempt) => Step(p.(lastCalled := doneAt), [Respond(attempt)], true)
      case Interrupted => Step(p.(lastCalled := doneAt), [], true)
  }

  /** A blocked invocation does not depend on the fetch or on the completion
      clock at all: nothing is requested and nothing is recorded. */
  lemma BlockedIgnoresFetch(p: Plugin, now: real, f1: Fetch, f2: Fetch, d1: real, d2: real)
    requires IsOnCooldown(p, now).onCooldown
    ensures Invoke(p, now, f1, d1) == Invoke(p, now, f2, d2)
    ensures Invoke(p, now, f1, d1).replies == [Plain(Wait(IsOnCooldown(p, now).remaining))]
  {
  }

  /** Every invocation that passes the gate records its completion time,
      whatever the fetch led to, an interruption included. */
  lemma CompletionAlwaysRecorded(p: Plugin, now: real, fetch: Fetch, doneAt: real)
    requires !IsOnCooldown(p, now).onCooldown
    ensures Invoke(p, now, fetch, doneAt).plugin == Plugin(p.period, doneAt)
    ensures Invoke(p, now, fetch, doneAt).fetched
  {
  }
}
