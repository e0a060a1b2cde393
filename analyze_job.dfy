/**
 * The `analyze-job` edge function (supabase/functions/analyze-job/index.ts):
 * validate the request, ask the AI gateway for a verdict on the job
 * description, pull the JSON object out of the reply, and answer.
 *
 * Everything outside the function's own logic is a parameter: the outcome of
 * `req.json()` is part of the request, the `LOVABLE_API_KEY` environment
 * variable is `apiKey`, the whole gateway round trip (`fetch`,
 * `response.json()` and reading `choices[0].message.content`) is `gateway`,
 * and `JSON.parse` is `parse`, whose parsed value has the opaque type `J`.
 * The response body is given as the value handed to `JSON.stringify`.
 */
module AnalyzeJob {
  import opened Wrappers
  import opened BraceSpan

  type Header = (string, string)

  const CorsHeaders: seq<Header> := [
    ("Access-Control-Allow-Origin", "*"),
    ("Access-Control-Allow-Headers", "authorization, x-client-info, apikey, content-type")
  ]

  /** The headers of every JSON answer: the CORS headers plus the content type. */
  const JsonHeaders: seq<Header> := CorsHeaders + [("Content-Type", "application/json")]

  const DescriptionRequired := "Job description is required"
  const KeyNotConfigured := "LOVABLE_API_KEY not configured"
  const AnalysisFailed := "AI analysis failed"
  const UnableToParse := "Unable to parse AI response"

  /** A value thrown inside the `try` block: an `Error` with its message, or any other value. */
  datatype Thrown = ErrorValue(message: string) | OtherValue

  /** `error instanceof Error ? error.message : 'Unknown error'` */
  function ErrorMessage(t: Thrown): string {
    match t
    case ErrorValue(m) => m
    case OtherValue => "Unknown error"
  }

  /** The parsed request body; only `jobDescription` is read. */
  datatype RequestBody = RequestBody(jobDescription: Option<string>)

  /** An incoming request: its HTTP method and the outcome of `await req.json()`. */
  datatype Request = Request(httpMethod: string, json: Result<RequestBody, Thrown>)

  /** How the gateway round trip ends: a non-ok status, the reply's message content, or a thrown value. */
  datatype GatewayReply = NotOk | Reply(content: string) | Raised(thrown: Thrown)

  /** The verdict sent back: whatever `JSON.parse` made of the extracted span, or the fixed fallback. */
  datatype Analysis<J> = Parsed(value: J) | Default(isLegit: bool, confidence: real, reasoning: string)

  datatype Body<J> = NoBody | AnalysisBody(analysis: Analysis<J>) | ErrorBody(error: string)

  datatype Response<J> = Response(status: nat, headers: seq<Header>, body: Body<J>)

  /** JavaScript truthiness of an optional string: present and non-empty. */
  predicate Truthy(v: Option<string>) {
    v.Some? && v.value != ""
  }

  /** The verdict used when the reply holds no brace span. */
  function Fallback<J>(): (a: Analysis<J>)
    ensures a.Default? && a.isLegit && a.confidence == 0.5 && a.reasoning == UnableToParse
  {
    Default(true, 0.5, UnableToParse)
  }

  /** The `jsonMatch ? JSON.parse(jsonMatch[0]) : fallback` expression on the reply's content. */
  function InterpretReply<J>(content: string, parse: string -> Result<J, Thrown>): (r: Result<Analysis<J>, Thrown>)
    ensures JsonMatch(content).None? ==> r == Success(Fallback())
    ensures JsonMatch(content).Some? ==>
      match parse(JsonMatch(content).value)
      case Success(v) => r == Success(Parsed(v))
      case Failure(t) => r == Failure(t)
  {
    match JsonMatch(content)
    case None => Success(Fallback())
    case Some(span) =>
      match parse(span)
      case Success(v) => Success(Parsed(v))
      case Failure(t) => Failure(t)
  }

  /** The body of the `try` block: validation, the gateway round trip, and the interpretation of its reply. */
  function Analyze<J>(
    json: Result<RequestBody, Thrown>,
    apiKey: Option<string>,
    gateway: (string, string) -> GatewayReply,
    parse: string -> Result<J, Thrown>
  ): (r: Result<Analysis<J>, Thrown>)
    // a body that cannot be read is the error
    ensures json.Failure? ==> r == Failure(json.error)
    // the description is checked first, the API key second
    ensures json.Success? && !Truthy(json.value.jobDescription) ==>
      r == Failure(ErrorValue(DescriptionRequired))
    ensures json.Success? && Truthy(json.value.jobDescription) && !Truthy(apiKey) ==>
      r == Failure(ErrorValue(KeyNotConfigured))
    // only a valid request whose gateway round trip yields a reply can succeed
    ensures r.Success? ==>
      json.Success? && Truthy(json.value.jobDescription) && Truthy(apiKey) &&
      gateway(json.value.jobDescription.value, apiKey.value).Reply?
    // once both checks pass, the gateway's outcome decides
    ensures json.Success? && Truthy(json.value.jobDescription) && Truthy(apiKey) ==>
      match gateway(json.value.jobDescription.value, apiKey.value)
      case NotOk => r == Failure(ErrorValue(AnalysisFailed))
      case Raised(t) => r == Failure(t)
      case Reply(content) => r == InterpretReply(content, parse)
  {
    match json
    case Failure(t) => Failure(t)
    case Success(body) =>
      if !Truthy(body.jobDescription) then Failure(ErrorValue(DescriptionRequired))
      else if !Truthy(apiKey) then Failure(ErrorValue(KeyNotConfigured))
      else
        match gateway(body.jobDescription.value, apiKey.value)
        case NotOk => Failure(ErrorValue(AnalysisFailed))
        case Raised(t) => Failure(t)
        case Reply(content) => InterpretReply(content, parse)
  }

  /**
   * The request handler. A preflight `OPTIONS` request is answered at once
   * with no body and the CORS headers; otherwise the outcome of `Analyze`
   * becomes a 200 answer with the verdict, and anything thrown becomes a 500
   * answer whose body is `{ error: message }`.
   */
  function Handle<J>(
    req: Request,
    apiKey: Option<string>,
    gateway: (string, string) -> GatewayReply,
    parse: string -> Result<J, Thrown>
  ): (r: Response<J>)
    ensures req.httpMethod == "OPTIONS" ==> r == Response(200, CorsHeaders, NoBody)
    ensures req.httpMethod != "OPTIONS" ==> r.headers == JsonHeaders && r.body != NoBody
    ensures r.status == 200 || r.status == 500
    ensures r.status == 500 <==> req.httpMethod != "OPTIONS" && Analyze(req.json, apiKey, gateway, parse).Failure?
    ensures r.status == 500 ==> r.body == ErrorBody(ErrorMessage(Analyze(req.json, apiKey, gateway, parse).error))
    ensures req.httpMethod != "OPTIONS" && r.status == 200 ==>
      r.body == AnalysisBody(Analyze(req.json, apiKey, gateway, parse).value)
  {
    if req.httpMethod == "OPTIONS" then
      Response(200, CorsHeaders, NoBody)
    else
      match Analyze(req.json, apiKey, gateway, parse)
      case Success(a) => Response(200, JsonHeaders, AnalysisBody(a))
      case Failure(t) => Response(500, JsonHeaders, ErrorBody(ErrorMessage(t)))
  }

  /** A preflight request is answered the same way whatever its body and whatever the environment. */
  lemma OptionsIgnoresEverythingElse<J>(
    req1: Request, req2: Request,
    key1: Option<string>, key2: Option<string>,
    gateway1: (string, string) -> GatewayReply, gateway2: (string, string) -> GatewayReply,
    parse1: string -> Result<J, Thrown>, parse2: string -> Result<J, Thrown>
  )
    requires req1.httpMethod == "OPTIONS" && req2.httpMethod == "OPTIONS"
    ensures Handle(req1, key1, gateway1, parse1) == Handle(req2, key2, gateway2, parse2)
  {
  }

  /** A missing or empty description is rejected before the API key or the gateway is consulted. */
  lemma DescriptionCheckedFirst<J>(
    req: Request, apiKey: Option<string>,
    gateway: (string, string) -> GatewayReply, parse: string -> Result<J, Thrown>
  )
    requires req.httpMethod != "OPTIONS" && req.json.Success? && !Truthy(req.json.value.jobDescription)
    ensures Handle(req, apiKey, gateway, parse) == Response(500, JsonHeaders, ErrorBody(DescriptionRequired))
  {
  }

  /** With a description but no API key the request fails without calling the gateway. */
  lemma MissingKeyRejected<J>(
    req: Request, apiKey: Option<string>,
    gateway: (string, string) -> GatewayReply, parse: string -> Result<J, Thrown>
  )
    requires req.httpMethod != "OPTIONS" && req.json.Success? && Truthy(req.json.value.jobDescription)
    requires !Truthy(apiKey)
    ensures Handle(req, apiKey, gateway, parse) == Response(500, JsonHeaders, ErrorBody(KeyNotConfigured))
  {
  }

  /** A non-ok gateway status is reported as a failed analysis. */
  lemma GatewayFailureRejected<J>(
    req: Request, apiKey: Option<string>,
    gateway: (string, string) -> GatewayReply, parse: string -> Result<J, Thrown>
  )
    requires req.httpMethod != "OPTIONS" && req.json.Success? && Truthy(req.json.value.jobDescription)
    requires Truthy(apiKey)
    requires gateway(req.json.value.jobDescription.value, apiKey.value) == NotOk
    ensures Handle(req, apiKey, gateway, parse) == Response(500, JsonHeaders, ErrorBody(AnalysisFailed))
  {
  }

  /**
   * A reply in which no `}` follows the first `{` (or with no `{` at all)
   * yields the fallback verdict with status 200, without calling `parse`.
   */
  lemma NoSpanGivesFallback<J>(
    req: Request, apiKey: Option<string>,
    gateway: (string, string) -> GatewayReply, parse: string -> Result<J, Thrown>
  )
    requires req.httpMethod != "OPTIONS" && req.json.Success? && Truthy(req.json.value.jobDescription)
    requires Truthy(apiKey)
    requires gateway(req.json.value.jobDescription.value, apiKey.value).Reply?
    requires var c := gateway(req.json.value.jobDescription.value, apiKey.value).content;
      forall i, k :: 0 <= i < k < |c| && c[i] == '{' ==> c[k] != '}'
    ensures Handle(req, apiKey, gateway, parse) ==
      Response(200, JsonHeaders, AnalysisBody(Default(true, 0.5, UnableToParse)))
  {
    JsonMatchNone(gateway(req.json.value.jobDescription.value, apiKey.value).content);
  }

  /**
   * A brace span that `JSON.parse` rejects does not fall back: the parse
   * error is thrown and the answer is a 500. A span it accepts is sent back
   * as parsed.
   */
  lemma SpanIsParsed<J>(
    req: Request, apiKey: Option<string>,
    gateway: (string, string) -> GatewayReply, parse: string -> Result<J, Thrown>
  )
    requires req.httpMethod != "OPTIONS" && req.json.Success? && Truthy(req.json.value.jobDescription)
    requires Truthy(apiKey)
    requires gateway(req.json.value.jobDescription.value, apiKey.value).Reply?
    requires JsonMatch(gateway(req.json.value.jobDescription.value, apiKey.value).content).Some?
    ensures var span := JsonMatch(gateway(req.json.value.jobDescription.value, apiKey.value).content).value;
      match parse(span)
      case Success(v) => Handle(req, apiKey, gateway, parse) == Response(200, JsonHeaders, AnalysisBody(Parsed(v)))
      case Failure(t) => Handle(req, apiKey, gateway, parse) == Response(500, JsonHeaders, ErrorBody(ErrorMessage(t)))
  {
  }

  /** A request body that `req.json()` cannot read gives a 500 answer carrying the thrown message. */
  lemma UnreadableBodyRejected<J>(
    req: Request, apiKey: Option<string>,
    gateway: (string, string) -> GatewayReply, parse: string -> Result<J, Thrown>
  )
    requires req.httpMethod != "OPTIONS" && req.json.Failure?
    ensures Handle(req, apiKey, gateway, parse) == Response(500, JsonHeaders, ErrorBody(ErrorMessage(req.json.error)))
  {
  }

  /**
   * A gateway round trip that throws (a failed `fetch`, an unreadable reply,
   * a reply without `choices[0].message.content`) gives a 500 answer carrying
   * the thrown message.
   */
  lemma GatewayThrowRejected<J>(
    req: Request, apiKey: Option<string>,
    gateway: (string, string) -> GatewayReply, parse: string -> Result<J, Thrown>
  )
    requires req.httpMethod != "OPTIONS" && req.json.Success? && Truthy(req.json.value.jobDescription)
    requires Truthy(apiKey)
    requires gateway(req.json.value.jobDescription.value, apiKey.value).Raised?
    ensures Handle(req, apiKey, gateway, parse) == Response(500, JsonHeaders,
      ErrorBody(ErrorMessage(gateway(req.json.value.jobDescription.value, apiKey.value).thrown)))
  {
  }
}
