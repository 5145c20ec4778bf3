/**
 * The optional AI enrichment of the project analysis.  The request to the
 * chat-completion service is not modelled: what it came back with is an
 * input, and this module decides what the generator does with it.
 */
module Enrichment {
  import opened Wrappers
  import opened Text
  import opened Files
  import opened Analyzer

  /** What the request to the advisory service came back with. */
  datatype ApiOutcome =
      /** Status 200 with a message content; `decoded` is what `json.loads` makes of it, `None` on a decode error. */
    | Answered(content: string, decoded: Option<Json>)
      /** Status 200, but the reply lacks the message content or another exception is raised while reading it. */
    | Malformed(reason: string)
      /** Any other status, with the body text. */
    | HttpError(status: int, body: string)
      /** The request itself raised (connection, timeout); `reason` is the exception's text. */
    | CallFailed(reason: string)

  /** `openai_token.strip() if openai_token else None`: an empty token counts as none. */
  function NormaliseToken(raw: Option<string>): (token: Option<string>)
    ensures raw.None? || raw == Some("") ==> token.None?
    ensures token.Some? ==> raw.Some? && Trim(token.value) == token.value
  {
    match raw
    case None => None
    case Some(t) =>
      if t == "" then None
      else
        TrimIdempotent(t);
        Some(Trim(t))
  }

  /** `bool(self.openai_token)`: AI mode is requested exactly when a non-empty token is held. */
  predicate AiMode(token: Option<string>) {
    token.Some? && token.value != ""
  }

  /** AI mode is on exactly when the raw token has something besides whitespace. */
  lemma AiModeIffToken(raw: Option<string>)
    ensures AiMode(NormaliseToken(raw)) <==> raw.Some? && Trim(raw.value) != ""
  {
  }

  /** The reason an enrichment fails. */
  datatype EnhanceError =
    | MissingToken
      /** The service could not be used; `detail` is the text of the exception `_call_openai_api` caught. */
    | ApiFailure(detail: string)
    | NoRecommendations

  /** The text of the exception raised for each failure. */
  function Message(e: EnhanceError): string {
    match e
    case MissingToken =>
      "AI mode requested but no OpenAI API token provided. Use --openai-token or set OPENAI_API_TOKEN environment variable."
    case ApiFailure(detail) => "Failed to access OpenAI API: " + detail
    case NoRecommendations => "Failed to get AI recommendations despite explicit AI mode request"
  }

  /**
   * The text of the exception `_call_openai_api` catches when the service is
   * not usable: its own error for a non-200 status, or the raised exception.
   */
  function FailureDetail(outcome: ApiOutcome): string
    requires !outcome.Answered?
  {
    match outcome
    case HttpError(status, body) => "OpenAI API Error: " + IntToString(status) + " - " + body
    case Malformed(reason) => reason
    case CallFailed(reason) => reason
  }

  /** The recommendations a 200 reply yields: the decoded JSON, or the raw text under `recommendations`. */
  function Reply(content: string, decoded: Option<Json>): (j: Json)
    ensures decoded.None? ==> Truthy(j)
    ensures decoded.Some? ==> j == decoded.value
  {
    match decoded
    case Some(value) => value
    case None => JObject([("recommendations", JString(content))])
  }

  /**
   * `_call_openai_api`: the recommendations of a 200 reply; otherwise an
   * exception when `failOnError`, and `None` when not.
   */
  function CallApi(outcome: ApiOutcome, failOnError: bool): (r: Result<Option<Json>, EnhanceError>)
    ensures r.Ok? && r.value.Some? <==> outcome.Answered?
    ensures r.Err? <==> !outcome.Answered? && failOnError
    ensures r.Err? ==> r.error.ApiFailure?
  {
    match outcome
    case Answered(content, decoded) => Ok(Some(Reply(content, decoded)))
    case _ => if failOnError then Err(ApiFailure(FailureDetail(outcome))) else Ok(None)
  }

  /** The analysis, with the recommendations attached when there are any. */
  datatype Enriched = Enriched(analysis: Analysis, recommendations: Option<Json>)

  /**
   * `_ai_enhance_analysis`: without a token, an error when `failOnError` and
   * the analysis unchanged otherwise; with one, the service's recommendations
   * are attached when truthy, and any failure is raised when `failOnError` and
   * swallowed otherwise.
   */
  function Enhance(token: Option<string>, failOnError: bool, a: Analysis, outcome: ApiOutcome): (r: Result<Enriched, EnhanceError>)
    ensures r.Ok? ==> r.value.analysis == a
  {
    if !AiMode(token) then
      if failOnError then Err(MissingToken) else Ok(Enriched(a, None))
    else
      match CallApi(outcome, failOnError)
      case Err(e) => Err(e)
      case Ok(Some(j)) =>
        if Truthy(j) then Ok(Enriched(a, Some(j)))
        else if failOnError then Err(NoRecommendations)
        else Ok(Enriched(a, None))
      case Ok(None) => Ok(Enriched(a, None))
  }

  /** Whether a reply carries recommendations worth attaching. */
  predicate Usable(outcome: ApiOutcome) {
    outcome.Answered? && Truthy(Reply(outcome.content, outcome.decoded))
  }

  /** Without `failOnError` enrichment never fails, and attaches exactly the usable replies. */
  lemma LenientNeverFails(token: Option<string>, a: Analysis, outcome: ApiOutcome)
    ensures Enhance(token, false, a, outcome).Ok?
    ensures Enhance(token, false, a, outcome).value.recommendations.Some? <==> AiMode(token) && Usable(outcome)
  {
  }

  /**
   * As the generator calls it, with `failOnError` equal to AI mode: without a
   * token the analysis passes through untouched; with one, the run goes on
   * only with recommendations attached, and every other outcome is fatal.
   */
  lemma AiModeMakesFailureFatal(token: Option<string>, a: Analysis, outcome: ApiOutcome)
    ensures !AiMode(token) ==> Enhance(token, AiMode(token), a, outcome) == Ok(Enriched(a, None))
    ensures AiMode(token) && Usable(outcome) ==>
      Enhance(token, AiMode(token), a, outcome) == Ok(Enriched(a, Some(Reply(outcome.content, outcome.decoded))))
    ensures AiMode(token) && !Usable(outcome) ==> Enhance(token, AiMode(token), a, outcome).Err?
    ensures Enhance(token, AiMode(token), a, outcome) != Err(MissingToken)
  {
  }

  /**
   * The fatal errors in AI mode: a falsy decoded reply, or the service's own
   * failure, whose text is wrapped once in `Failed to access OpenAI API: `.
   */
  lemma FatalErrors(token: Option<string>, a: Analysis, outcome: ApiOutcome)
    requires AiMode(token) && !Usable(outcome)
    ensures outcome.Answered? ==> Enhance(token, true, a, outcome) == Err(NoRecommendations)
    ensures outcome.HttpError? ==>
      Enhance(token, true, a, outcome) == Err(ApiFailure("OpenAI API Error: " + IntToString(outcome.status) + " - " + outcome.body))
    ensures outcome.CallFailed? ==> Enhance(token, true, a, outcome) == Err(ApiFailure(outcome.reason))
  {
  }

  /** A reply that is not JSON is kept as text, so it is always attached. */
  lemma TextReplyAttached(token: Option<string>, fail: bool, a: Analysis, content: string)
    requires AiMode(token)
    ensures Enhance(token, fail, a, Answered(content, None)) ==
      Ok(Enriched(a, Some(JObject([("recommendations", JString(content))]))))
  {
  }
}
