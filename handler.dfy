/**
 * The POST /api/analizar handler (server.js:26-131) as a function of the
 * request body, the configuration, the upstream completion service and the
 * JSON parser. The service and the parser are parameters: the model says
 * what the handler does with whatever they answer.
 */
module Handler {
  import opened Wrappers
  import opened Text
  import Json
  import opened LeadInfo
  import opened AnalysisPrompt

  /** The request body fields the handler destructures. */
  datatype RequestBody = RequestBody(
    lead: Option<Lead>,
    notas: Option<string>,
    interacciones: Option<seq<string>>,
    actividades: Option<seq<string>>)

  /** The process environment the handler reads: only `OPENAI_API_KEY`. */
  datatype Config = Config(openAiApiKey: Option<string>)

  /** What one call of the completion service comes back with. */
  datatype UpstreamReply =
      /** A reply whose status is not 2xx, with its body text. */
    | NotOk(status: int, errorText: string)
      /** A 2xx reply; `content` is `choices[0].message.content`, None when any step of that path is missing. */
    | Completed(content: Option<string>)
      /** The call or the reading of its body threw, with the exception's message. */
    | Threw(message: string)

  datatype Body =
    | ErrorBody(error: string, detalle: Option<string>)
    | AnalysisBody(analisis: Json.Value)

  datatype Response = Response(status: int, body: Body)

  /** The response, and the prompts sent upstream while producing it, in order. */
  datatype Outcome = Outcome(response: Response, upstreamCalls: seq<string>)

  const MissingDataError := "Faltan datos del lead o las notas"
  const MissingKeyError := "OPENAI_API_KEY no está configurado en Render"
  const UpstreamError := "Error llamando a OpenAI"
  const InternalError := "Error interno del backend IA"
  const SummaryKey := "resumen_ejecutivo"

  /** `req.body || {}`: a missing body has no fields. */
  function BodyOrEmpty(body: Option<RequestBody>): RequestBody {
    if body.Some? then body.value else RequestBody(None, None, None, None)
  }

  /** The first guard passes: `lead` and `notas` are both truthy. */
  predicate HasLeadAndNotes(b: RequestBody) {
    b.lead.Some? && Truthy(b.notas)
  }

  /** The prompt the handler would send for a body that passed the guards. */
  function PromptFor(b: RequestBody): (p: string)
    requires b.lead.Some?
    ensures EmbeddedInfo(p) == Some(InfoLead(b.lead.value, b.notas, b.interacciones, b.actividades))
  {
    Prompt(InfoLead(b.lead.value, b.notas, b.interacciones, b.actividades))
  }

  /** `content || "{}"`: the text handed to the parser is never empty. */
  function ContentText(content: Option<string>): (t: string)
    ensures t != ""
    ensures Truthy(content) ==> t == content.value
    ensures !Truthy(content) ==> t == "{}"
  {
    OrElse(content, "{}")
  }

  /**
   * `JSON.parse(contenido)`, or, when it throws, an object whose only
   * property is `resumen_ejecutivo` holding the whole text.
   */
  function Analysis(contenido: string, parse: string -> Option<Json.Value>): (v: Json.Value)
    ensures parse(contenido).Some? ==> v == parse(contenido).value
    ensures parse(contenido).None? ==>
              v.JObject? && Json.Keys(v) == [SummaryKey]
              && Json.Get(v, SummaryKey) == Some(Json.JString(contenido))
  {
    match parse(contenido)
    case Some(parsed) => parsed
    case None => Json.JObject([(SummaryKey, Json.JString(contenido))])
  }

  /** The handler. */
  function Handle(body: Option<RequestBody>, config: Config,
                  upstream: string -> UpstreamReply,
                  parse: string -> Option<Json.Value>): (out: Outcome)
    // Every response is one of these three.
    ensures out.response.status in {200, 400, 500}
    // 400 exactly when the first guard rejects, before anything else.
    ensures out.response.status == 400 <==> !HasLeadAndNotes(BodyOrEmpty(body))
    ensures !HasLeadAndNotes(BodyOrEmpty(body)) ==>
              out == Outcome(Response(400, ErrorBody(MissingDataError, None)), [])
    // A missing key is reported before any prompt is sent.
    ensures HasLeadAndNotes(BodyOrEmpty(body)) && !Truthy(config.openAiApiKey) ==>
              out == Outcome(Response(500, ErrorBody(MissingKeyError, None)), [])
    // The service is called at most once, and exactly when both guards pass.
    ensures |out.upstreamCalls| <= 1
    ensures out.upstreamCalls != [] <==>
              HasLeadAndNotes(BodyOrEmpty(body)) && Truthy(config.openAiApiKey)
    ensures out.upstreamCalls != [] ==> out.upstreamCalls == [PromptFor(BodyOrEmpty(body))]
    // What is done with the service's reply.
    ensures out.upstreamCalls != [] ==>
              match upstream(out.upstreamCalls[0])
              case NotOk(_, text) =>
                out.response == Response(500, ErrorBody(UpstreamError, Some(text)))
              case Threw(message) =>
                out.response == Response(500, ErrorBody(InternalError, Some(message)))
              case Completed(content) =>
                out.response == Response(200, AnalysisBody(Analysis(ContentText(content), parse)))
    // A 200 carries the parse of the content, or the whole content as the summary.
    ensures out.response.status == 200 <==> out.response.body.AnalysisBody?
  {
    var b := BodyOrEmpty(body);
    if !HasLeadAndNotes(b) then
      Outcome(Response(400, ErrorBody(MissingDataError, None)), [])
    else if !Truthy(config.openAiApiKey) then
      Outcome(Response(500, ErrorBody(MissingKeyError, None)), [])
    else
      var prompt := PromptFor(b);
      match upstream(prompt)
      case NotOk(_, errorText) =>
        Outcome(Response(500, ErrorBody(UpstreamError, Some(errorText))), [prompt])
      case Threw(message) =>
        Outcome(Response(500, ErrorBody(InternalError, Some(message))), [prompt])
      case Completed(content) =>
        Outcome(Response(200, AnalysisBody(Analysis(ContentText(content), parse))), [prompt])
  }

  /**
   * The block a guarded request sends: its notes section is `notas`
   * verbatim, never the "Sin notas registradas." fallback, and every other
   * line is as InfoLeadLines describes.
   */
  lemma {:induction false} SentInfoLines(b: RequestBody)
    requires HasLeadAndNotes(b)
    ensures EmbeddedInfo(PromptFor(b)).Some?
    ensures Split(EmbeddedInfo(PromptFor(b)).value, '\n')
         == ["", "LEAD:"]
            + Split("- Nombre: " + FieldText(b.lead.value.nombre), '\n')
            + Split("- Email: " + FieldText(b.lead.value.email), '\n')
            + Split("- Teléfono: " + FieldText(b.lead.value.telefono), '\n')
            + Split("- Origen: " + FieldText(b.lead.value.origen), '\n')
            + ["", "NOTAS DEL VENDEDOR:"] + Split(b.notas.value, '\n')
            + ["", "INTERACCIONES:"] + Split(RenderList(b.interacciones, NoInteractions), '\n')
            + ["", "ACTIVIDADES:"] + Split(RenderList(b.actividades, NoActivities), '\n')
            + [""]
  {
    InfoLeadLines(b.lead.value, b.notas, b.interacciones, b.actividades);
  }

  /**
   * With no content in the reply the parser is given "{}", so a parser that
   * reads "{}" as the empty object makes the analysis that empty object.
   */
  lemma MissingContentIsEmptyObject(content: Option<string>, parse: string -> Option<Json.Value>)
    requires !Truthy(content)
    requires parse("{}") == Some(Json.JObject([]))
    ensures Analysis(ContentText(content), parse) == Json.JObject([])
  {
  }
}
