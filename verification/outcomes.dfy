/** An independent description of the handler's replies: each fetch is first
    classified into one terminal outcome, and each outcome has exactly one reply.
    The handler's own `try`/`except` structure is proved to agree with it. */
module Outcomes {
  import opened Wrappers
  import opened PyJson
  import opened Doro

  /** The terminal outcome of the single fetch. */
  datatype Outcome =
    | Sticker(url: Json)           // success flag and URL both truthy
    | Empty                        // success flag truthy, URL falsy
    | ApiFailure                   // success flag false or absent
    | HttpStatusFailure(status: int)
    | NetworkFailure
    | UnknownFailure(cause: Exc)   // any other exception, malformed bodies included

  /** `data["success"]` if present, else False: the flag the handler tests. */
  function SuccessFlag(fields: map<string, Json>): Json {
    if "success" in fields then fields["success"] else JBool(false)
  }

  /** The body is a dict whose `sticker` is a dict holding a `url`. */
  predicate HasUrl(fields: map<string, Json>) {
    "sticker" in fields && fields["sticker"].JObj? && "url" in fields["sticker"].fields
  }

  function UrlOf(fields: map<string, Json>): Json
    requires HasUrl(fields)
  {
    fields["sticker"].fields["url"]
  }

  /** Why a body with a truthy flag but no reachable URL fails. */
  function MissingUrl(fields: map<string, Json>): Exc
    requires !HasUrl(fields)
  {
    if "sticker" !in fields then KeyError("sticker")
    else if fields["sticker"].JObj? then KeyError("url")
    else TypeError
  }

  /** The classification, stated by shape rather than by control flow. */
  function Classify(fetch: Attempt): Outcome {
    match fetch
    case Failure(HttpStatusError(status)) => HttpStatusFailure(status)
    case Failure(RequestError) => NetworkFailure
    case Failure(e) => UnknownFailure(e)
    case Success(JObj(fields)) =>
      if !Truthy(SuccessFlag(fields)) then ApiFailure
      else if !HasUrl(fields) then UnknownFailure(MissingUrl(fields))
      else if Truthy(UrlOf(fields)) then Sticker(UrlOf(fields))
      else Empty
    case Success(_) => UnknownFailure(AttributeError)
  }

  /** The reply table: one reply per outcome. */
  function Emit(o: Outcome): Reply {
    match o
    case Sticker(url) => Image(url)
    case Empty => Plain(NoSticker)
    case ApiFailure => Plain(ApiFailed)
    case HttpStatusFailure(status) => Plain(StatusFailed(status))
    case NetworkFailure => Plain(NetworkFailed)
    case UnknownFailure(cause) => Plain(UnknownFailed(cause))
  }

  /** Distinct outcomes give distinct replies, so the reply tells which outcome occurred. */
  lemma EmitInjective(o1: Outcome, o2: Outcome)
    ensures Emit(o1) == Emit(o2) <==> o1 == o2
  {
  }

  /** The handler's `try`/`except` chain replies exactly as the table says. */
  lemma RespondMatchesTable(fetch: Attempt)
    ensures Respond(fetch) == Emit(Classify(fetch))
  {
  }

  /** An image reply is sent exactly when the body is a dict with a truthy
      `success` and a truthy `sticker.url`, and it carries exactly that URL. */
  lemma ImageExactlyOnTruthyUrl(fetch: Attempt)
    ensures Respond(fetch).Image? <==>
      fetch.Success? && fetch.value.JObj? && Truthy(SuccessFlag(fetch.value.fields))
      && HasUrl(fetch.value.fields) && Truthy(UrlOf(fetch.value.fields))
    ensures Respond(fetch).Image? ==> Respond(fetch).url == UrlOf(fetch.value.fields)
  {
  }

  /** A non-empty URL string is passed through unchanged. */
  lemma StickerUrlPassedThrough(url: string)
    requires url != ""
    ensures Respond(Success(JObj(map["success" := JBool(true), "sticker" := JObj(map["url" := JStr(url)])])))
         == Image(JStr(url))
  {
  }

  /** The "no sticker" text is sent exactly when the flag is truthy and the URL is present but falsy. */
  lemma NoStickerExactlyOnFalsyUrl(fetch: Attempt)
    ensures Respond(fetch) == Plain(NoSticker) <==>
      fetch.Success? && fetch.value.JObj? && Truthy(SuccessFlag(fetch.value.fields))
      && HasUrl(fetch.value.fields) && !Truthy(UrlOf(fetch.value.fields))
  {
  }

  /** "API failed" is sent exactly when the body is a dict whose `success` is falsy or absent. */
  lemma ApiFailedExactlyOnFalsyFlag(fetch: Attempt)
    ensures Respond(fetch) == Plain(ApiFailed) <==>
      fetch.Success? && fetch.value.JObj? && !Truthy(SuccessFlag(fetch.value.fields))
  {
  }

  /** The status-code text is sent exactly for an HTTP status error, and carries its code. */
  lemma StatusTextExactlyOnStatusError(fetch: Attempt, status: int)
    ensures Respond(fetch) == Plain(StatusFailed(status)) <==> fetch == Failure(HttpStatusError(status))
  {
  }

  /** The network text is sent exactly for a request error. */
  lemma NetworkTextExactlyOnRequestError(fetch: Attempt)
    ensures Respond(fetch) == Plain(NetworkFailed) <==> fetch == Failure(RequestError)
  {
  }

  /** The unknown-error text is sent exactly when some other exception occurs:
      one raised by the fetch itself, a body that is not a dict, or a truthy flag
      without a reachable `sticker.url`. */
  lemma UnknownTextExactlyOnOtherFailure(fetch: Attempt)
    ensures Respond(fetch).Plain? && Respond(fetch).text.UnknownFailed? <==>
      match fetch
      case Failure(e) => !e.HttpStatusError? && !e.RequestError?
      case Success(data) =>
        !data.JObj? || (Truthy(SuccessFlag(data.fields)) && !HasUrl(data.fields))
  {
  }

  /** A missing `sticker` or `url` key behind a truthy flag is reported as an unknown error, naming the key. */
  lemma MissingKeyIsUnknown(fields: map<string, Json>)
    requires Truthy(SuccessFlag(fields))
    ensures "sticker" !in fields ==> Respond(Success(JObj(fields))) == Plain(UnknownFailed(KeyError("sticker")))
    ensures "sticker" in fields && fields["sticker"].JObj? && "url" !in fields["sticker"].fields ==>
      Respond(Success(JObj(fields))) == Plain(UnknownFailed(KeyError("url")))
  {
  }
}
