/**
 The content-generation endpoint: it checks the two required fields, then the
 content type against a fixed list, fills in the tone and audience defaults,
 asks the text generator, and turns a thrown error into a status by looking
 for substrings in its message.

 The prompt builder and the generator live in a library that is not part of
 this model; together they are the parameter `generate`, which sees exactly
 the arguments the handler passes and either yields text or throws.
 */
module GenerateContentRoute {
  import opened Js

  /** One attached image, passed through to the generator untouched. */
  datatype ImagePart = ImagePart(data: string, mimeType: string)

  /** The JSON body's fields the handler reads. */
  datatype Request = Request(contentType: Field<string>, persona: Field<string>, userInput: Field<string>,
                             images: Field<seq<ImagePart>>, tone: Field<string>, targetAudience: Field<string>)

  /** A body that parses and destructures, or the message of what was thrown
      while reading it. */
  datatype Body = Parsed(request: Request) | Thrown(message: string)

  /** What the handler hands the prompt builder and generator. */
  datatype PromptArgs = PromptArgs(contentType: string, persona: Field<string>, userInput: string,
                                   tone: Field<string>, targetAudience: Field<string>,
                                   hasImages: bool, images: Field<seq<ImagePart>>)

  /** The generator's result: text, or an error carrying a message. */
  datatype Generation = Generated(text: string) | Failed(message: string)

  datatype ResponseBody =
    | ContentBody(content: string, contentType: string, persona: Field<string>)
    | ErrorBody(error: string, details: Option<string>)

  datatype Response = Response(status: int, body: ResponseBody)

  const ValidContentTypes: seq<string> := ["caption", "promotion", "video"]

  const MissingFieldsMessage := "Missing required fields: contentType and userInput are required"
  const InvalidTypeMessage := "Invalid contentType. Must be one of: caption, promotion, video"
  const ApiKeyMessage := "API key not configured. Please add GOOGLE_GEMINI_API_KEY to .env.local"
  const QuotaMessage := "API quota exceeded. Please try again later."
  const GenericMessage := "Failed to generate content"

  /** A destructuring default for a string field: only `undefined` is
      replaced. */
  function WithDefault(f: Field<string>, default: string): (r: Field<string>)
    ensures f.Undefined? ==> r == Present(default)
    ensures !f.Undefined? ==> r == f
  {
    if f.Undefined? then Present(default) else f
  }

  /** `images && images.length > 0`. */
  predicate HasImages(images: Field<seq<ImagePart>>) {
    images.Present? && |images.value| > 0
  }

  /** The two request checks in the order the handler makes them; on success
      the arguments for the generator. */
  function Validate(r: Request): (v: Result<PromptArgs, Response>)
    ensures (!Truthy(r.contentType) || !Truthy(r.userInput)) ==>
              v == Failure(Response(400, ErrorBody(MissingFieldsMessage, None)))
    ensures Truthy(r.contentType) && Truthy(r.userInput) && r.contentType.value !in ValidContentTypes ==>
              v == Failure(Response(400, ErrorBody(InvalidTypeMessage, None)))
    ensures v.Success? <==> Truthy(r.contentType) && Truthy(r.userInput) && r.contentType.value in ValidContentTypes
    ensures v.Success? ==>
              && v.value.contentType == r.contentType.value
              && v.value.userInput == r.userInput.value
              && v.value.persona == r.persona
              && v.value.tone == WithDefault(r.tone, "casual")
              && v.value.targetAudience == WithDefault(r.targetAudience, "general")
              && v.value.hasImages == HasImages(r.images)
              && v.value.images == r.images
  {
    if !Truthy(r.contentType) || !Truthy(r.userInput) then
      Failure(Response(400, ErrorBody(MissingFieldsMessage, None)))
    else if r.contentType.value !in ValidContentTypes then
      Failure(Response(400, ErrorBody(InvalidTypeMessage, None)))
    else
      Success(PromptArgs(r.contentType.value, r.persona, r.userInput.value,
                         WithDefault(r.tone, "casual"), WithDefault(r.targetAudience, "general"),
                         HasImages(r.images), r.images))
  }

  /** The catch block: an API-key error first, then quota or rate limit, and
      anything else as a generic failure; the message goes along as details.
      Matching is case-sensitive. */
  function Classify(message: string): (resp: Response)
    ensures resp.body.ErrorBody? && resp.body.details == Some(message)
    ensures Includes(message, "API_KEY") ==> resp.status == 500 && resp.body.error == ApiKeyMessage
    ensures resp.status == 429 <==>
              !Includes(message, "API_KEY") && (Includes(message, "quota") || Includes(message, "rate limit"))
    ensures resp.status == 429 ==> resp.body.error == QuotaMessage
    ensures !Includes(message, "API_KEY") && !Includes(message, "quota") && !Includes(message, "rate limit") ==>
              resp == Response(500, ErrorBody(GenericMessage, Some(message)))
  {
    if Includes(message, "API_KEY") then Response(500, ErrorBody(ApiKeyMessage, Some(message)))
    else if Includes(message, "quota") || Includes(message, "rate limit") then
      Response(429, ErrorBody(QuotaMessage, Some(message)))
    else Response(500, ErrorBody(GenericMessage, Some(message)))
  }

  /** The POST handler. */
  function Post(body: Body, generate: PromptArgs -> Generation): (resp: Response)
    ensures body.Thrown? ==> resp == Classify(body.message)
    ensures body.Parsed? && Validate(body.request).Failure? ==> resp == Validate(body.request).error
    ensures body.Parsed? && Validate(body.request).Success? && generate(Validate(body.request).value).Failed? ==>
              resp == Classify(generate(Validate(body.request).value).message)
    ensures resp.status == 200 <==>
              body.Parsed? && Validate(body.request).Success? && generate(Validate(body.request).value).Generated?
    ensures resp.status == 200 ==>
              resp.body == ContentBody(generate(Validate(body.request).value).text,
                                   body.request.contentType.value, body.request.persona)
  {
    match body
    case Thrown(m) => Classify(m)
    case Parsed(r) =>
      match Validate(r)
      case Failure(resp) => resp
      case Success(args) =>
        match generate(args)
        case Generated(text) => Response(200, ContentBody(text, args.contentType, r.persona))
        case Failed(m) => Classify(m)
  }

  /** Every response the handler gives carries one of four statuses. */
  lemma PostStatuses(body: Body, generate: PromptArgs -> Generation)
    ensures Post(body, generate).status in {200, 400, 429, 500}
  {
  }

  /** A request that fails validation never reaches the generator: the
      response is the same whatever the generator would have done. */
  lemma RejectedRequestIgnoresGenerator(r: Request, g1: PromptArgs -> Generation, g2: PromptArgs -> Generation)
    requires Validate(r).Failure?
    ensures Post(Parsed(r), g1) == Post(Parsed(r), g2)
    ensures Post(Parsed(r), g1).status == 400
  {
  }

  /** The required-field check comes before the content-type check: an
      unknown type with an empty input is reported as a missing field. */
  lemma MissingFieldsCheckedFirst(r: Request)
    requires r.contentType == Present("poem") && r.userInput == Present("")
    ensures Validate(r) == Failure(Response(400, ErrorBody(MissingFieldsMessage, None)))
  {
  }

  /** An explicit `null` tone is passed on as `null`, not replaced by the
      default. */
  lemma NullToneKept(r: Request)
    requires Validate(r).Success? && r.tone == Null
    ensures Validate(r).value.tone == Null
  {
  }

  /** A message naming both the API key and the quota is an API-key error. */
  lemma ApiKeyWinsOverQuota()
    ensures Classify("API_KEY invalid; quota exceeded").status == 500
    ensures Classify("API_KEY invalid; quota exceeded").body.error == ApiKeyMessage
  {
    assert OccursAt("API_KEY invalid; quota exceeded", "API_KEY", 0);
  }

  /** A quota error is a 429. */
  lemma QuotaIs429()
    ensures Classify("quota").status == 429
  {
  }
}
