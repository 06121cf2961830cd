/**
 The image-enhancement endpoint: it checks that an image with data and a MIME
 type came in, needs an API key, picks the caller's instructions or a built-in
 text, and then tries two image models in a fixed order. The first model whose
 reply holds inline image data wins; if none does, the last model's error is
 reported.

 The model SDK is the parameter `call`: for a model name and the message sent
 it gives either a thrown error or the reply's candidate list. A reply with no
 `candidates` field is the empty list; a candidate whose content cannot be read
 is a thrown error.
 */
module EnhanceImageRoute {
  import opened Js

  datatype ImageInput = ImageInput(data: Field<string>, mimeType: Field<string>)

  datatype Request = Request(image: Field<ImageInput>, enhancementInstructions: Field<string>)

  /** A body that parses and destructures, or the message of what was thrown
      while reading it. */
  datatype Body = Parsed(request: Request) | Thrown(message: string)

  /** The instructions sent: the caller's own, or the built-in text that asks
      the model to keep the photo's content and improve only its quality. */
  datatype Instructions = Custom(text: string) | BuiltIn

  /** What is sent to each model: the instructions and one inline image. */
  datatype Message = Message(instructions: Instructions, mimeType: string, data: string)

  datatype InlineData = InlineData(mimeType: string, data: string)

  datatype Part = Part(inlineData: Option<InlineData>)

  datatype Candidate = Candidate(parts: seq<Part>)

  datatype ModelReply = Threw(message: string) | Replied(candidates: seq<Candidate>)

  /** The models in the order they are tried. */
  const ModelsToTry: seq<string> := ["gemini-3-pro-image-preview", "gemini-2.5-flash-image"]

  const MissingImageMessage := "Missing required field: image with data and mimeType"
  const MissingKeyMessage := "GOOGLE_GEMINI_API_KEY is not set in environment variables"
  const NoImageMessage := "No image data in response"
  const AllFailedMessage := "All image enhancement models failed"
  const FailureMessage := "Failed to enhance image"

  datatype ResponseBody =
    | EnhancedBody(mimeType: string, data: string, model: string)
    | ErrorBody(error: string, details: Option<string>)

  datatype Response = Response(status: int, body: ResponseBody)

  /** The first part, in order, that carries inline data. */
  function FirstInline(parts: seq<Part>): (r: Option<InlineData>)
    ensures r.None? <==> forall i :: 0 <= i < |parts| ==> parts[i].inlineData.None?
    ensures r.Some? ==> exists i :: 0 <= i < |parts| && parts[i].inlineData == r &&
                                     forall j :: 0 <= j < i ==> parts[j].inlineData.None?
  {
    if |parts| == 0 then None
    else if parts[0].inlineData.Some? then parts[0].inlineData
    else
      var r := FirstInline(parts[1..]);
      assert forall i :: 1 <= i < |parts| ==> parts[i] == parts[1..][i - 1];
      if r.Some? then
        var i :| 0 <= i < |parts[1..]| && parts[1..][i].inlineData == r &&
                 forall j :: 0 <= j < i ==> parts[1..][j].inlineData.None?;
        assert parts[i + 1].inlineData == r;
        r
      else
        r
  }

  /** One model's attempt: the image from the first candidate, or the message
      of the error it throws. */
  function Attempt(reply: ModelReply): (r: Result<InlineData, string>)
    ensures reply.Threw? ==> r == Failure(reply.message)
    ensures reply.Replied? && |reply.candidates| == 0 ==> r == Failure(NoImageMessage)
    ensures reply.Replied? && |reply.candidates| > 0 ==>
              match FirstInline(reply.candidates[0].parts)
              case Some(d) => r == Success(d)
              case None => r == Failure(NoImageMessage)
  {
    match reply
    case Threw(m) => Failure(m)
    case Replied(candidates) =>
      if |candidates| > 0 then
        match FirstInline(candidates[0].parts)
        case Some(d) => Success(d)
        case None => Failure(NoImageMessage)
      else Failure(NoImageMessage)
  }

  /** The result of the fallback loop: an image and the model that made it,
      or the last error seen (none if no model was tried). */
  datatype Fallback = Enhanced(image: InlineData, model: string) | AllFailed(lastError: Option<string>)

  /** The models from index i on, with `lastError` the error of the model
      before i. */
  function TryFrom(models: seq<string>, i: nat, lastError: Option<string>, msg: Message,
                   call: (string, Message) -> ModelReply): Fallback
    requires i <= |models|
    decreases |models| - i
  {
    if i == |models| then AllFailed(lastError)
    else
      match Attempt(call(models[i], msg))
      case Success(d) => Enhanced(d, models[i])
      case Failure(m) => TryFrom(models, i + 1, Some(m), msg, call)
  }

  /** The whole fallback loop. */
  function TryModels(models: seq<string>, msg: Message, call: (string, Message) -> ModelReply): Fallback {
    TryFrom(models, 0, None, msg, call)
  }

  /** The image returned comes from the first model, in order, whose attempt
      succeeds: every model tried before it failed. */
  lemma {:induction false} TryFromFirstSuccess(models: seq<string>, i: nat, lastError: Option<string>, msg: Message,
                                               call: (string, Message) -> ModelReply)
    requires i <= |models|
    ensures var r := TryFrom(models, i, lastError, msg, call);
            r.Enhanced? ==> exists k :: i <= k < |models| && models[k] == r.model
                                      && Attempt(call(models[k], msg)) == Success(r.image)
                                      && forall j :: i <= j < k ==> Attempt(call(models[j], msg)).Failure?
    decreases |models| - i
  {
    if i < |models| && Attempt(call(models[i], msg)).Failure? {
      TryFromFirstSuccess(models, i + 1, Some(Attempt(call(models[i], msg)).error), msg, call);
    }
  }

  /** The loop ends without an image exactly when every model fails, and then
      the error kept is the last model's (or the one carried in, when no
      model is left). */
  lemma {:induction false} TryFromAllFail(models: seq<string>, i: nat, lastError: Option<string>, msg: Message,
                                          call: (string, Message) -> ModelReply)
    requires i <= |models|
    ensures var r := TryFrom(models, i, lastError, msg, call);
            && (r.AllFailed? <==> forall j :: i <= j < |models| ==> Attempt(call(models[j], msg)).Failure?)
            && (r.AllFailed? && i < |models| ==>
                  r.lastError == Some(Attempt(call(models[|models| - 1], msg)).error))
            && (r.AllFailed? && i == |models| ==> r.lastError == lastError)
    decreases |models| - i
  {
    if i < |models| && Attempt(call(models[i], msg)).Failure? {
      TryFromAllFail(models, i + 1, Some(Attempt(call(models[i], msg)).error), msg, call);
    }
  }

  /** The `for ... of` loop over the models, as the handler runs it. */
  method RunModels(models: seq<string>, msg: Message, call: (string, Message) -> ModelReply) returns (r: Fallback)
    ensures r == TryModels(models, msg, call)
  {
    var lastError: Option<string> := None;
    var i := 0;
    while i < |models|
      invariant 0 <= i <= |models|
      invariant TryModels(models, msg, call) == TryFrom(models, i, lastError, msg, call)
    {
      var attempt := Attempt(call(models[i], msg));
      if attempt.Success? {
        return Enhanced(attempt.value, models[i]);
      }
      lastError := Some(attempt.error);
      i := i + 1;
    }
    return AllFailed(lastError);
  }

  /** `enhancementInstructions || defaultInstructions`. */
  function ChooseInstructions(f: Field<string>): (ins: Instructions)
    ensures Truthy(f) <==> ins.Custom?
    ensures ins.Custom? ==> ins.text == f.value
  {
    if Truthy(f) then Custom(f.value) else BuiltIn
  }

  /** `!image || !image.data || !image.mimeType` fails. */
  predicate HasImage(r: Request) {
    r.image.Present? && Truthy(r.image.value.data) && Truthy(r.image.value.mimeType)
  }

  /** The POST handler; `apiKey` is the environment's key, if set. */
  function Post(body: Body, apiKey: Option<string>, call: (string, Message) -> ModelReply): (resp: Response)
    ensures body.Thrown? ==> resp == Response(500, ErrorBody(FailureMessage, Some(body.message)))
    ensures body.Parsed? && !HasImage(body.request) ==> resp == Response(400, ErrorBody(MissingImageMessage, None))
    ensures body.Parsed? && HasImage(body.request) && (apiKey.None? || apiKey.value == "") ==>
              resp == Response(500, ErrorBody(FailureMessage, Some(MissingKeyMessage)))
    ensures resp.status == 200 || resp.status == 400 || resp.status == 500
    ensures resp.status == 200 <==>
              body.Parsed? && HasImage(body.request) && apiKey.Some? && apiKey.value != "" &&
              TryModels(ModelsToTry, RequestMessage(body.request), call).Enhanced?
    ensures body.Parsed? && HasImage(body.request) && apiKey.Some? && apiKey.value != "" ==>
              match TryModels(ModelsToTry, RequestMessage(body.request), call)
              case Enhanced(d, model) => resp == Response(200, EnhancedBody(d.mimeType, d.data, model))
              case AllFailed(lastError) =>
                resp == Response(500, ErrorBody(FailureMessage,
                                                Some(if lastError.Some? then lastError.value else AllFailedMessage)))
  {
    match body
    case Thrown(m) => Response(500, ErrorBody(FailureMessage, Some(m)))
    case Parsed(r) =>
      if !HasImage(r) then Response(400, ErrorBody(MissingImageMessage, None))
      else if apiKey.None? || apiKey.value == "" then Response(500, ErrorBody(FailureMessage, Some(MissingKeyMessage)))
      else
        match TryModels(ModelsToTry, RequestMessage(r), call)
        case Enhanced(d, model) => Response(200, EnhancedBody(d.mimeType, d.data, model))
        case AllFailed(lastError) =>
          var m := if lastError.Some? then lastError.value else AllFailedMessage;
          Response(500, ErrorBody(FailureMessage, Some(m)))
  }

  /** The message every model receives for a request with an image. */
  function RequestMessage(r: Request): (msg: Message)
    requires HasImage(r)
    ensures msg.mimeType == r.image.value.mimeType.value && msg.data == r.image.value.data.value
    ensures msg.instructions == ChooseInstructions(r.enhancementInstructions)
  {
    Message(ChooseInstructions(r.enhancementInstructions), r.image.value.mimeType.value, r.image.value.data.value)
  }

  /** When the preferred model answers with an image, the fallback model's
      reply does not matter. */
  lemma PreferredModelWins(msg: Message, call: (string, Message) -> ModelReply, d: InlineData)
    requires Attempt(call(ModelsToTry[0], msg)) == Success(d)
    ensures TryModels(ModelsToTry, msg, call) == Enhanced(d, "gemini-3-pro-image-preview")
  {
  }

  /** When both models fail, the error reported is the second model's: the
      built-in "all models failed" message can never surface. */
  lemma BothFailReportsLastError(msg: Message, call: (string, Message) -> ModelReply)
    requires Attempt(call(ModelsToTry[0], msg)).Failure?
    requires Attempt(call(ModelsToTry[1], msg)).Failure?
    ensures TryModels(ModelsToTry, msg, call) == AllFailed(Some(Attempt(call("gemini-2.5-flash-image", msg)).error))
  {
  }

  /** A request is answered with an image only when some model, in order,
      produced exactly that image and every model before it failed. */
  lemma PostAnswersFirstWorkingModel(r: Request, apiKey: Option<string>, call: (string, Message) -> ModelReply)
    requires Post(Parsed(r), apiKey, call).status == 200
    ensures var resp := Post(Parsed(r), apiKey, call);
            resp.body.EnhancedBody? &&
            exists k :: 0 <= k < |ModelsToTry| && ModelsToTry[k] == resp.body.model
                        && Attempt(call(ModelsToTry[k], RequestMessage(r))) == Success(InlineData(resp.body.mimeType, resp.body.data))
                        && forall j :: 0 <= j < k ==> Attempt(call(ModelsToTry[j], RequestMessage(r))).Failure?
  {
  }

  /** With an image and a key, the preferred model's image is the response,
      whatever the fallback model would have answered. */
  lemma PostPreferredModel(r: Request, apiKey: Option<string>, call: (string, Message) -> ModelReply, d: InlineData)
    requires HasImage(r) && apiKey.Some? && apiKey.value != ""
    requires Attempt(call(ModelsToTry[0], RequestMessage(r))) == Success(d)
    ensures Post(Parsed(r), apiKey, call) == Response(200, EnhancedBody(d.mimeType, d.data, "gemini-3-pro-image-preview"))
  {
  }

  /** With an image and a key, a request every model fails on is a 500 whose
      details are the last model's error. */
  lemma PostAllModelsFail(r: Request, apiKey: Option<string>, call: (string, Message) -> ModelReply)
    requires HasImage(r) && apiKey.Some? && apiKey.value != ""
    requires forall j :: 0 <= j < |ModelsToTry| ==> Attempt(call(ModelsToTry[j], RequestMessage(r))).Failure?
    ensures Post(Parsed(r), apiKey, call)
              == Response(500, ErrorBody(FailureMessage, Some(Attempt(call("gemini-2.5-flash-image", RequestMessage(r))).error)))
  {
  }

  /** A reply whose first candidate holds no inline image counts as a failure
      even if a later candidate holds one. */
  lemma OnlyFirstCandidateCounts(first: Candidate, rest: seq<Candidate>)
    requires forall i :: 0 <= i < |first.parts| ==> first.parts[i].inlineData.None?
    ensures Attempt(Replied([first] + rest)) == Failure(NoImageMessage)
  {
  }
}
