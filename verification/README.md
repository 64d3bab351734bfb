# doro sticker plugin — Dafny model

This project models `astrbot_plugin_doro`, a chat-bot plugin whose single
command `doro` fetches a random "Doro" sticker from a web API and sends it
to the chat. A global cooldown throttles the command. The model covers the
plugin's decision logic:

- the plugin state (`cooldown_period`, `last_called_time`, initially 0);
- the cooldown gate `is_on_cooldown`, which returns whether a call is
  blocked and the remaining wait;
- the `doro` handler as one pure step `(state, now, fetch, doneAt) -> (state', replies, fetched)`.
  A blocked call yields one wait text and returns before the `try`, so the
  `finally` does not run. Otherwise the call makes one request, maps its
  result to one reply (none if the request is interrupted, see below), and
  records the completion time in the `finally`.

The HTTP request is replaced by its result. That result is the decoded
JSON body (a full JSON value with Python truthiness), the exception raised
by the request, `raise_for_status` or `response.json()`, or an
interruption.
The handler's own reads (`data.get("success", False)`,
`data["sticker"]["url"]`) follow Python's rules: `.get` on a non-dict
raises `AttributeError`, a missing key raises `KeyError`, and subscripting
a non-dict raises `TypeError`. All three end in the generic `except`.

Modules:

- `Wrappers` (wrappers.dfy): a failure-compatible `Result`.
- `PyJson` (pyjson.dfy): JSON values, truthiness, the exceptions, `get` and subscripting.
- `Cooldown` (cooldown.dfy): the plugin state and the gate.
- `Doro` (doro.dfy): the handler.
- `Outcomes` (outcomes.dfy): an independent classification of each
  fetch into one terminal outcome (sticker, empty, API failure, HTTP
  status, network, unknown) and a reply table. It is proved to agree
  with the handler's `try`/`except` structure.
- `Trace` (trace.dfy): sequences of invocations and the rate limit they
  obey. Each request starts at least one period after the previous one
  completed, so n requests span at least n - 1 periods.

Times are seconds, modelled as `real`. The clock is a parameter: `now` is
the gate's reading and `doneAt` is the reading in the `finally`.

Two behaviours of the code are worth stating plainly:

- a body whose `success` is false or absent gets one fixed "API failed"
  text, which does not carry any message from the API;
- a body that is not JSON, or not a dict, or lacks `sticker.url` behind a
  truthy `success`, gets the generic unknown-error reply.

A request interrupted by an exception outside Python's `Exception`
hierarchy (task cancellation, keyboard interrupt) is caught by no `except`
clause. The `finally` still records the completion time, and no reply is
sent.

## Model

| member | source | states |
|---|---|---|
| Cooldown.Init | main.py:16-21 | A new plugin keeps the configured period, and its gate is closed exactly when `now` is below the period, so the first call at or after `cooldown_period` seconds of clock time is let through |
| Cooldown.IsOnCooldown | main.py:26-35 | The remaining time is never negative. The gate is closed exactly when the remaining time is strictly positive, which is exactly when `now` is before `last_called_time + cooldown_period`. While closed, `now + remaining` is that reopening instant |
| Cooldown.RemainingNonIncreasing | main.py:32-35 | With no update in between, a later check never reports more remaining time, and a gate open earlier stays open later |
| Cooldown.RemainingAtMostPeriod | main.py:32-34 | When the clock is not before the last completion, the remaining time is at most the period (at most 0 for a negative period) |
| Doro.Interpret | main.py:50-58 | The body's own reads raise only `AttributeError`, `KeyError` or `TypeError`, all handled by the generic clause and never by the status or network clauses. A body that is not a dict fails at `.get` with `AttributeError`. An image reply built here carries a truthy URL |
| Doro.Except | main.py:59-73 | The `except` chain gives one text reply, never a wait text. It is the status text exactly for an HTTP status error, the network text exactly for a request error, and the unknown-error text for every other exception |
| Doro.Respond | main.py:46-73 | A call that passed the gate never replies with a wait text, and an image reply always carries a truthy URL value |
| Doro.Invoke | main.py:37-75 | The period is kept, and the request is made exactly when the gate is open. A blocked call leaves the state unchanged and sends exactly one reply, a wait with a positive remaining time. A call past the gate always records its completion time. If its request completed or raised an `Exception`, it sends exactly one reply, the handler's reply to that result. If the request was interrupted outside `Exception`, it sends no reply |
| Doro.BlockedIgnoresFetch | main.py:40-45 | A blocked invocation does not depend on what the request would return or on the completion clock: it issues no request, records nothing and sends the single wait text |
| Doro.CompletionAlwaysRecorded | main.py:46-75 | Whatever the fetch led to, an interruption included, an invocation past the gate issues the request and leaves the state with `last_called_time` equal to the completion time |
| Outcomes.EmitInjective | main.py:51-73 | The six terminal outcomes have six distinct replies, so the reply identifies the outcome |
| Outcomes.RespondMatchesTable | main.py:46-73 | The handler's reply to every fetch result equals the reply of its classified outcome |
| Outcomes.ImageExactlyOnTruthyUrl | main.py:51-54 | An image reply is sent exactly when the body is a dict, `success` is truthy, and `sticker.url` exists and is truthy. The image carries exactly that URL |
| Outcomes.StickerUrlPassedThrough | main.py:51-54 | A body `{"success": true, "sticker": {"url": u}}` with a non-empty string `u` gives the image reply for `u` |
| Outcomes.NoStickerExactlyOnFalsyUrl | main.py:51-56 | The "no sticker" text is sent exactly when `success` is truthy and `sticker.url` exists but is falsy (empty string, null, ...) |
| Outcomes.ApiFailedExactlyOnFalsyFlag | main.py:51-58 | "API failed" is sent exactly when the body is a dict whose `success` is falsy or absent |
| Outcomes.StatusTextExactlyOnStatusError | main.py:59-63 | The status text for a code is sent exactly when the fetch raised an HTTP status error with that code |
| Outcomes.NetworkTextExactlyOnRequestError | main.py:64-68 | The network text is sent exactly when the fetch raised a request error |
| Outcomes.UnknownTextExactlyOnOtherFailure | main.py:49-73 | The unknown-error text is sent exactly when the fetch raised any other exception, the body is not a dict, or a truthy `success` comes without a reachable `sticker.url` |
| Outcomes.MissingKeyIsUnknown | main.py:51-52 | With a truthy `success`, a missing `sticker` key, or a `sticker` dict without `url`, gives the unknown-error reply naming the missing key |
| Trace.RunAll | main.py:37-75 | Over a run of invocations there is at most one reply and at most one request per invocation, and exactly one reply each when no request is interrupted. `last_called_time` is the completion time of the last request, or its initial value if none was made. The first request starts at least one period after the initial timestamp |
| Trace.RateLimited | main.py:32-35 | In any run, each request starts at least `cooldown_period` seconds after the previous request completed |
| Trace.FetchesWellTimed | main.py:74-75 | When each invocation completes no earlier than it starts, each recorded request span does too |
| Trace.RequestsSpreadOverPeriods | main.py:32-75 | Over any run whose invocations complete no earlier than they start, n requests span at least n - 1 cooldown periods from the first start to the last |

## Left out

- The HTTP GET, `raise_for_status` and `response.json()` (network I/O and a foreign library). Their combined result is an input to the model: a decoded JSON value, the `Exception` raised, or an interruption outside `Exception`. Which status codes `raise_for_status` rejects is the library's business.
- Logging, `print` and `traceback.format_exc`. These are side effects only. The case where `self.logger` is still `None` is also left out: an `except` clause would then raise before replying, which only happens if the lifecycle hook did not run.
- Framework glue: command registration, the `initialize`/`terminate` hooks, and the `plain_result`/`image_result` constructors. Replies are a plain datatype. The framework's behaviour when `image_result` receives a truthy non-string URL, or when `plain_result` receives two arguments on the unknown-error path, is not visible and is not modelled.
- The exact wording of the texts and the `:.0f` rounding of the remaining seconds. The wait text carries the unrounded remaining time.
- Float arithmetic: times and the period are exact reals. The `cooldown_period` option is assumed present; if it were absent, the gate's subtraction would raise outside the handler's `try`.
- Concurrent invocations racing on `last_called_time`. The trace model runs invocations one after another.
- Cancellation of the handler after its reply has been yielded, which belongs to the framework's consumption of the reply stream.
