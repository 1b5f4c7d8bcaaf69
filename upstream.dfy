/** What comes back from the data service, what the proxy answers, and the two
    ways the proxy turns the one into the other: `be_error`'s error envelope and
    the plain relay of a successful JSON body. */
module Upstream {
  import opened Wrappers
  import opened Json

  /** A response from the data service: its status code, its body decoded as
      JSON (`None` when `resp.json()` raises), and its raw text. */
  datatype Response = Response(status: int, json: Option<Value>, text: string)

  /** `resp.ok` of the requests library: false exactly for the 4xx and 5xx codes. */
  predicate IsOk(resp: Response) {
    !(400 <= resp.status < 600)
  }

  /** On the codes HTTP defines, `resp.ok` means "below 400". */
  lemma OkMeansBelow400(resp: Response)
    requires 100 <= resp.status < 600
    ensures IsOk(resp) <==> resp.status < 400
  {
  }

  /** The proxy's answer: a JSON body with a status; an `abort` with a status and
      description; or the 500 answer to an exception the handler does not catch. */
  datatype Reply =
    | JsonReply(status: int, body: Value)
    | Aborted(status: int, description: string)
    | ServerError
  {
    function Code(): int {
      match this
      case JsonReply(status, _) => status
      case Aborted(status, _) => status
      case ServerError => 500
    }
  }

  const FallbackMessage: string := "Backendless error"

  /** The `backendless` part of the envelope: the decoded body, or else
      `{message: text}` with a fixed message standing in for an empty text. */
  function ErrorPayload(resp: Response): (p: Value)
    ensures resp.json.Some? ==> p == resp.json.value
    ensures resp.json.None? ==> p.Object? && p.fields.Keys == {"message"}
    ensures resp.json.None? ==> p.fields["message"].Str? && p.fields["message"].s != ""
    ensures resp.json.None? && resp.text != "" ==> p.fields["message"] == Str(resp.text)
    ensures resp.json.None? && resp.text == "" ==> p.fields["message"] == Str(FallbackMessage)
  {
    match resp.json
    case Some(v) => v
    case None => Object(map["message" := Str(if resp.text != "" then resp.text else FallbackMessage)])
  }

  /** Reads a body as an error envelope `{error: true, status: n, backendless: p}`
      and gives back `(n, p)`; `None` for any other body. */
  function EnvelopeOf(body: Value): Option<(int, Value)> {
    if body.Object? && body.fields.Keys == {"error", "status", "backendless"}
       && body.fields["error"] == Bool(true) && body.fields["status"].Number?
    then Some((body.fields["status"].n, body.fields["backendless"]))
    else None
  }

  /** `be_error`: the uniform error envelope, sent with the upstream status. */
  function BeError(resp: Response): (r: Reply)
    ensures r.JsonReply? && r.Code() == resp.status
    ensures EnvelopeOf(r.body) == Some((resp.status, ErrorPayload(resp)))
  {
    JsonReply(resp.status, Object(map["error" := Bool(true),
                                      "status" := Number(resp.status),
                                      "backendless" := ErrorPayload(resp)]))
  }

  /** The tail every handler but delete shares: a failed call goes to the error
      envelope; a successful one answers `successStatus` with the upstream JSON
      body unchanged, and raises (a 500) when that body is not JSON. */
  function Relay(resp: Response, successStatus: int): (r: Reply)
    ensures !IsOk(resp) ==> r == BeError(resp)
    ensures r.Code() == if !IsOk(resp) then resp.status
                        else if resp.json.Some? then successStatus else 500
    ensures IsOk(resp) && resp.json.Some? ==> r.JsonReply? && r.body == resp.json.value
    ensures IsOk(resp) && resp.json.None? ==> r == ServerError
  {
    if !IsOk(resp) then BeError(resp)
    else match resp.json
      case Some(v) => JsonReply(successStatus, v)
      case None => ServerError
  }
}
