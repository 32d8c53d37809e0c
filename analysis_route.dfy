/**
 * What the two Next.js analysis routes (skin and beauty) share: the multipart
 * form they read, the requests they send to the generative model, the outcome
 * of a model call, the HTTP response they answer with, and the fixed error
 * messages. The model service and JSON.parse are not modelled: a route takes
 * them as function parameters.
 */
module AnalysisRoute {
  import opened Wrappers
  import opened Json

  newtype Byte = x: int | 0 <= x < 256

  /** A File received in the form: name, declared MIME type (`file.type`) and content. */
  datatype UploadedFile = UploadedFile(name: string, mimeType: string, content: seq<Byte>)

  /** What `formData.get` may return for a field: a File or a plain string. */
  datatype FormValue = FileValue(file: UploadedFile) | TextValue(text: string)

  /** A multipart body: its fields in order (a name may repeat). */
  type FormData = seq<(string, FormValue)>

  const ImageField := "analysisImage"
  const ModelName := "gemini-2.0-flash"
  const JsonMimeType := "application/json"

  const MissingImageMessage := "Missing `analysisImage` file upload."
  const EmptyResponseMessage := "Gemini API returned an empty or invalid response."
  const InvalidJsonMessage := "Invalid JSON format received from Gemini API."
  const DefaultErrorMessage := "Internal Server Error"

  /** formData.get(name): the first value with that name, or null (None). */
  function FormGet(form: FormData, name: string): (r: Option<FormValue>)
    ensures r.None? <==> forall k :: 0 <= k < |form| ==> form[k].0 != name
    ensures r.Some? ==> exists k :: 0 <= k < |form| && form[k] == (name, r.value)
                          && forall i :: 0 <= i < k ==> form[i].0 != name
  {
    if form == [] then None
    else if form[0].0 == name then Some(form[0].1)
    else
      var r := FormGet(form[1..], name);
      if r.None? then None
      else
        var k :| 0 <= k < |form[1..]| && form[1..][k] == (name, r.value)
                 && forall i :: 0 <= i < k ==> form[1..][i].0 != name;
        assert form[k + 1] == (name, r.value);
        r
  }

  /** `!file`: null and the empty string are falsy; a File or a non-empty string is not. */
  predicate IsFalsy(v: Option<FormValue>)
  {
    v.None? || (v.value.TextValue? && v.value.text == "")
  }

  /**
   * One part of the single user turn: the instruction text or the inline
   * image. A route names its prompts by a value of its own type P, and states
   * the exact text of each with a function of its own.
   */
  datatype Part<P> = TextPart(prompt: P) | InlineData(mimeType: string, data: seq<Byte>)

  /** The `config` of a call asking for structured output. */
  datatype GenConfig = GenConfig(responseMimeType: string, responseSchema: Schema)

  /** One generateContent call: model, a single `user` turn with its parts, and an optional config. */
  datatype GenRequest<P> = GenRequest(model: string, role: string, parts: seq<Part<P>>, config: Option<GenConfig>)

  /**
   * What a call does: it throws an error with a message, or it resolves to a
   * response whose `text` is a string or undefined (None).
   */
  datatype CallOutcome = Threw(message: string) | Responded(text: Option<string>)

  /**
   * The route's answer: NextResponse.json(body, {status}), or an error thrown
   * outside the try block, which the framework answers on its own.
   */
  datatype HttpResponse = JsonResponse(status: int, body: Json) | Uncaught

  /**
   * The request every pass makes: the prompt, then the image as inline data
   * with the file's MIME type. The image travels base64-encoded; the part here
   * holds the bytes that encoding carries.
   */
  function ImageRequest<P>(prompt: P, file: UploadedFile, config: Option<GenConfig>): (r: GenRequest<P>)
    ensures r.model == ModelName && r.role == "user" && r.config == config
    ensures r.parts == [TextPart(prompt), InlineData(file.mimeType, file.content)]
  {
    GenRequest(ModelName, "user", [TextPart(prompt), InlineData(file.mimeType, file.content)], config)
  }

  function ErrorBody(message: string): Json
  {
    JObject([("error", JString(message))])
  }

  /** The `error` string a client reads from a JSON object answer, if there is one. */
  function ErrorOf(r: HttpResponse): Option<string>
  {
    if r.JsonResponse? && r.body.JObject? then
      match Lookup(r.body.members, "error")
      case Some(JString(m)) => Some(m)
      case _ => None
    else None
  }

  /**
   * The catch block: `error.message || "Internal Server Error"` with status
   * 500. The client always reads a non-empty error message.
   */
  function ServerError(message: string): (r: HttpResponse)
    ensures r.JsonResponse? && r.status == 500
    ensures ErrorOf(r) == Some(if message == "" then DefaultErrorMessage else message)
    ensures ErrorOf(r).Some? && ErrorOf(r).value != ""
  {
    JsonResponse(500, ErrorBody(if message == "" then DefaultErrorMessage else message))
  }

  /** The answer to a request without an image: 400 with the missing-upload message. */
  function BadRequest(): (r: HttpResponse)
    ensures r.JsonResponse? && r.status == 400
    ensures ErrorOf(r) == Some(MissingImageMessage)
  {
    JsonResponse(400, ErrorBody(MissingImageMessage))
  }

  /**
   * How a route answers once the call that produces the structured result has
   * settled: a thrown error, a missing or empty text, or text that does not
   * parse all become 500 with their message; parsed text is returned as is.
   */
  function Settle(outcome: CallOutcome, parse: string -> Option<Json>): (r: HttpResponse)
    ensures r.JsonResponse? && (r.status == 200 || r.status == 500)
    ensures r.status == 200 <==> Classify(outcome, parse).Success?
    ensures r.status == 500 ==> ErrorOf(r).Some? && ErrorOf(r).value != ""
  {
    match outcome
    case Threw(m) => ServerError(m)
    case Responded(text) =>
      if text.None? || text.value == "" then ServerError(EmptyResponseMessage)
      else if parse(text.value).None? then ServerError(InvalidJsonMessage)
      else JsonResponse(200, parse(text.value).value)
  }

  /** The four ways a structured call can end, as the routes tell them apart. */
  datatype Ending = Success(body: Json) | UpstreamError(message: string) | EmptyText | Unparsable

  /** Classifies the final outcome independently of how Settle answers it. */
  function Classify(outcome: CallOutcome, parse: string -> Option<Json>): Ending
  {
    if outcome.Threw? then UpstreamError(outcome.message)
    else if outcome.text.None? || |outcome.text.value| == 0 then EmptyText
    else match parse(outcome.text.value)
      case None => Unparsable
      case Some(v) => Success(v)
  }

  /**
   * Settle answers 200 exactly on success, with the parsed value unchanged as
   * the body; every other ending is a 500 whose message names it. A model
   * error whose message happens to equal one of the fixed messages is the only
   * way two endings share a body.
   */
  lemma SettleByEnding(outcome: CallOutcome, parse: string -> Option<Json>)
    ensures var r := Settle(outcome, parse);
      r.JsonResponse? && (r.status == 200 || r.status == 500)
      && match Classify(outcome, parse)
         case Success(v) => r.status == 200 && r.body == v
         case EmptyText => r == JsonResponse(500, ErrorBody(EmptyResponseMessage))
         case Unparsable => r == JsonResponse(500, ErrorBody(InvalidJsonMessage))
         case UpstreamError(m) => r == ServerError(m)
  {
  }

  /** A 200 answer only ever carries what JSON.parse made of the final text. */
  lemma SettleSuccessIsParsed(outcome: CallOutcome, parse: string -> Option<Json>)
    requires Settle(outcome, parse).JsonResponse? && Settle(outcome, parse).status == 200
    ensures outcome.Responded? && outcome.text.Some? && outcome.text.value != ""
    ensures parse(outcome.text.value) == Some(Settle(outcome, parse).body)
  {
  }
}
