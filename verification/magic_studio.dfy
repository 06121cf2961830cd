/**
 The pure helpers of the studio page: the persona table, the transcript the
 voice button hands over, the guards in front of the generate and refine
 buttons, the request they send, the photo tips shown after a result, and the
 offline template picker.

 The template picker returns which template is used and the pieces of it
 that depend on the input (the quoted topic, the image note and the hashtag),
 not the literal template text. Reading the uploaded files as base64 is the
 parameter `encode`.
 */
module MagicStudio {
  import opened Js
  import ImageUpload
  import VoiceInput
  import GenerateContentRoute

  /** The three keys of the persona table. */
  datatype PersonaKey = PaMeaw | KanahBatik | BetongTour

  function KeyName(k: PersonaKey): string {
    match k
    case PaMeaw => "pa_meaw"
    case KanahBatik => "kanah_batik"
    case BetongTour => "betong_tour"
  }

  /** A table lookup by name: only the table's own keys resolve. */
  function PersonaNamed(name: string): (k: Option<PersonaKey>)
    ensures k.Some? ==> KeyName(k.value) == name
    ensures k.None? <==> name !in {"pa_meaw", "kanah_batik", "betong_tour"}
  {
    if name == "pa_meaw" then Some(PaMeaw)
    else if name == "kanah_batik" then Some(KanahBatik)
    else if name == "betong_tour" then Some(BetongTour)
    else None
  }

  /** `personaId ? personas[personaId] : null`, with `personaId` the `persona`
      query parameter (`None` when the URL has none). */
  function CurrentPersona(personaId: Option<string>): (k: Option<PersonaKey>)
    ensures k.Some? <==> personaId.Some? && personaId.value in {"pa_meaw", "kanah_batik", "betong_tour"}
    ensures k.Some? ==> KeyName(k.value) == personaId.value
  {
    if personaId.Some? && personaId.value != "" then PersonaNamed(personaId.value) else None
  }

  /** Every key resolves to itself. */
  lemma KeyNamesResolve(k: PersonaKey)
    ensures CurrentPersona(Some(KeyName(k))) == Some(k)
  {
  }

  /** The persona ids the landing page's demo cards link to, as written. */
  const LandingPersonaIds: seq<string> := ["pa_meaw", "kanah", "haris"]

  /** Two of the three demo links open the studio with no persona. */
  lemma LandingLinksMissPersonas()
    ensures CurrentPersona(Some(LandingPersonaIds[0])) == Some(PaMeaw)
    ensures CurrentPersona(Some(LandingPersonaIds[1])).None?
    ensures CurrentPersona(Some(LandingPersonaIds[2])).None?
  {
  }

  /** The ids the demo cards are meant to carry: the table's own keys, in the
      cards' order. */
  const CorrectedLandingPersonaIds: seq<string> := ["pa_meaw", "kanah_batik", "betong_tour"]

  /** The persona a demo card opens the studio with. */
  function DemoCardPersona(card: nat): (k: Option<PersonaKey>)
    requires card < |CorrectedLandingPersonaIds|
    ensures k.Some? && KeyName(k.value) == CorrectedLandingPersonaIds[card]
  {
    CurrentPersona(Some(CorrectedLandingPersonaIds[card]))
  }

  /** With the corrected ids every demo card resolves, each to a different
      persona. */
  lemma CorrectedLandingLinksResolve()
    ensures forall i :: 0 <= i < |CorrectedLandingPersonaIds| ==> DemoCardPersona(i).Some?
    ensures forall i, j :: 0 <= i < j < |CorrectedLandingPersonaIds| ==> DemoCardPersona(i) != DemoCardPersona(j)
  {
  }

  /** `text.replace(/ /g, '')`: every U+0020 goes, nothing else does. */
  function RemoveSpaces(s: string): (r: string)
    ensures |r| <= |s|
    ensures forall i :: 0 <= i < |r| ==> r[i] != ' '
    ensures forall c :: c != ' ' ==> multiset(r)[c] == multiset(s)[c]
  {
    if |s| == 0 then ""
    else
      assert s == [s[0]] + s[1..];
      (if s[0] == ' ' then "" else [s[0]]) + RemoveSpaces(s[1..])
  }

  /** Removing spaces works piecewise, so the order of what remains is
      kept. */
  lemma {:induction false} RemoveSpacesConcat(a: string, b: string)
    ensures RemoveSpaces(a + b) == RemoveSpaces(a) + RemoveSpaces(b)
  {
    if |a| == 0 {
      assert a + b == b;
    } else {
      assert (a + b)[0] == a[0] && (a + b)[1..] == a[1..] + b;
      RemoveSpacesConcat(a[1..], b);
    }
  }

  /** A string leaves the hashtag form unchanged exactly when it has no
      space; so the form is idempotent. */
  lemma {:induction false} RemoveSpacesFixedIff(s: string)
    ensures RemoveSpaces(s) == s <==> forall i :: 0 <= i < |s| ==> s[i] != ' '
  {
    if |s| > 0 {
      RemoveSpacesFixedIff(s[1..]);
      assert forall i :: 1 <= i < |s| ==> s[i] == s[1..][i - 1];
      if s[0] == ' ' {
        assert |RemoveSpaces(s)| < |s| by {
          assert |RemoveSpaces(s)| == |RemoveSpaces(s[1..])|;
        }
      }
    }
  }

  lemma RemoveSpacesIdempotent(s: string)
    ensures RemoveSpaces(RemoveSpaces(s)) == RemoveSpaces(s)
  {
    RemoveSpacesFixedIff(RemoveSpaces(s));
  }

  datatype ContentKind = Caption | Promotion | Video

  function KindNamed(t: string): (k: Option<ContentKind>)
    ensures k.Some? <==> t in GenerateContentRoute.ValidContentTypes
    ensures t == "caption" ==> k == Some(Caption)
    ensures t == "promotion" ==> k == Some(Promotion)
    ensures t == "video" ==> k == Some(Video)
  {
    if t == "caption" then Some(Caption)
    else if t == "promotion" then Some(Promotion)
    else if t == "video" then Some(Video)
    else None
  }

  const CaptionTips: seq<string> := [
    "📸 **มุมกล้อง:** ถ่ายในระดับสายตา (Eye Level) เพื่อให้ดูเป็นธรรมชาติ",
    "💡 **แสง:** ใช้แสงธรรมชาติจากหน้าต่าง หรือแสงนุ่มจากด้านข้าง (Side Light)",
    "🎨 **สี:** ใช้พื้นหลังสีเดียว (Solid Color) เพื่อไม่ให้รบกวนตัวสินค้า",
    "✨ **การจัดวาง:** ใช้กฎ 1/3 (Rule of Thirds) วางสินค้าไม่ให้อยู่ตรงกลางเสมอ",
    "🍽️ **Props:** เพิ่มของประกอบเล็กน้อย เช่น ใบไม้ ผ้าลินิน หรือช้อนส้อม"
  ]

  const PromotionTips: seq<string> := [
    "🏷️ **Focus:** ถ่ายให้เห็นป้ายโปรโมชั่นชัดเจน ใช้ Close-up",
    "👥 **คน:** เพิ่มคนในภาพเพื่อสร้าง Social Proof",
    "🎯 **ทำให้เด่น:** ใช้สีตัดกันเพื่อให้ข้อความโปรโมชั่นโดดเด่น",
    "📐 **สมดุล:** วางสินค้าและข้อความให้สมดุล ไม่แน่นเกินไป"
  ]

  const VideoTips: seq<string> := [
    "🎬 **การเคลื่อนไหว:** ถ่ายกระบวนการทำให้เห็น (Process Shot)",
    "🎤 **เสียง:** ใช้ไมค์เสริมเพื่อคุณภาพเสียงที่ดี",
    "⏱️ **ความยาว:** เน้น 15-30 วินาทีแรก ต้องดึงดูดความสนใจ",
    "🖼️ **Thumbnail:** เลือกเฟรมที่น่าสนใจสุดเป็น Thumbnail"
  ]

  function TipsFor(k: ContentKind): seq<string> {
    match k
    case Caption => CaptionTips
    case Promotion => PromotionTips
    case Video => VideoTips
  }

  /** `generatePhotoTips`: the list for the content type, and the caption
      list for any other type. */
  function PhotoTips(contentType: string): (tips: seq<string>)
    ensures KindNamed(contentType).Some? ==> tips == TipsFor(KindNamed(contentType).value)
    ensures KindNamed(contentType).None? ==> tips == CaptionTips
    ensures |tips| == (if contentType in ["promotion", "video"] then 4 else 5)
    ensures contentType == "promotion" ==> tips == PromotionTips
    ensures contentType == "video" ==> tips == VideoTips
    ensures contentType != "promotion" && contentType != "video" ==> tips == CaptionTips
  {
    match KindNamed(contentType)
    case Some(k) => TipsFor(k)
    case None => CaptionTips
  }

  /** A template: its kind and the persona it is written for, or `None` for
      the kind's generic template. */
  datatype Template = Template(kind: ContentKind, persona: Option<PersonaKey>)

  /** The selection at the end of `generateContent`: the persona's template
      from the type's table when there is one, else the type's default; an
      unknown type gets the default caption. The three tables share the
      persona table's keys. */
  function SelectTemplate(contentType: string, persona: Option<string>): (t: Template)
    ensures KindNamed(contentType).None? ==> t == Template(Caption, None)
    ensures KindNamed(contentType).Some? ==> t.kind == KindNamed(contentType).value
    ensures t.persona.Some? <==>
              KindNamed(contentType).Some? && persona.Some? &&
              persona.value in {"pa_meaw", "kanah_batik", "betong_tour"}
    ensures t.persona.Some? ==> KeyName(t.persona.value) == persona.value
  {
    match KindNamed(contentType)
    case None => Template(Caption, None)
    case Some(k) => Template(k, if persona.Some? then PersonaNamed(persona.value) else None)
  }

  const DefaultTopic := "สินค้าคุณภาพ"
  const ImageNote := " 📸 (ดูรูปภาพประกอบ)"

  /** The parts of a drafted post that depend on the input. */
  datatype Draft = Draft(template: Template, topic: string, imageNote: string, hashtag: Option<string>)

  /** `generateContent(type, persona, input, images)`: the topic is the input
      or a stock phrase when the input is empty; caption and promotion
      templates carry the image note when there are images; caption and video
      templates carry the topic as a space-free hashtag in their hashtag line. `imageCount` is the length of
      `images`, 0 when it is left out. */
  function GenerateDraft(contentType: string, persona: Option<string>, input: Field<string>, imageCount: nat): (d: Draft)
    ensures d.template == SelectTemplate(contentType, persona)
    ensures Truthy(input) ==> d.topic == input.value
    ensures !Truthy(input) ==> d.topic == DefaultTopic
    ensures d.imageNote != "" <==> imageCount > 0 && d.template.kind != Video
    ensures d.imageNote != "" ==> d.imageNote == ImageNote
    ensures d.hashtag.Some? <==> d.template.kind != Promotion
    ensures d.hashtag.Some? ==>
              (forall i :: 0 <= i < |d.hashtag.value| ==> d.hashtag.value[i] != ' ') &&
              d.hashtag.value == RemoveSpaces(d.topic)
  {
    var t := SelectTemplate(contentType, persona);
    var topic := if Truthy(input) then input.value else DefaultTopic;
    var imageText := if imageCount > 0 then ImageNote else "";
    Draft(t, topic,
          if t.kind == Video then "" else imageText,
          if t.kind == Promotion then None else Some(RemoveSpaces(topic)))
  }

  /** An unknown content type drafts a generic caption, whoever the persona. */
  lemma UnknownTypeDraftsGenericCaption(contentType: string, persona: Option<string>, input: Field<string>, n: nat)
    requires contentType !in ["caption", "promotion", "video"]
    ensures GenerateDraft(contentType, persona, input, n).template == Template(Caption, None)
    ensures GenerateDraft(contentType, persona, input, n).hashtag.Some?
  {
  }

  /** The refinement the three buttons under a result ask for. */
  datatype RefineMode = Shorten | Lengthen | Regenerate

  /** A request to the content route: the body the route reads, the
      refinement the page adds to it, and the content type selected when it
      was sent. */
  datatype ApiCall = ApiCall(request: GenerateContentRoute.Request, refinementMode: Option<RefineMode>, contentType: string)

  /** What came back: the content of a successful response, or a failure
      (an error status, or a request that threw). */
  datatype ApiReply = ApiOk(content: string) | ApiFailed

  /** The page's state: the persona query parameter, the selected options,
      the uploaded files, and what is on screen. */
  datatype Studio = Studio(
    personaId: Option<string>,
    contentType: string, tone: string, targetAudience: string,
    uploaded: seq<ImageUpload.File>,
    transcript: string, isGenerating: bool, generatedCaption: string,
    error: string, photoTips: seq<string>)

  function Initial(personaId: Option<string>): Studio {
    Studio(personaId, "caption", "casual", "general", [], "", false, "", "", [])
  }

  const EmptyInputMessage := "กรุณาพูดหรือพิมพ์ข้อความก่อน"
  const GenerateFailedMessage := "ไม่สามารถสร้างคอนเทนต์ได้ กรุณาลองใหม่อีกครั้ง"
  const RefineFailedMessage := "ไม่สามารถปรับแต่งคอนเทนต์ได้ กรุณาลองใหม่อีกครั้ง"

  /** `handleTranscript`: the trimmed text, or "" for `null` and
      `undefined`, replaces the transcript, and the last result is cleared. */
  function HandleTranscript(s: Studio, text: Field<string>): (s': Studio)
    ensures text.Present? ==> s'.transcript == Trim(text.value)
    ensures !text.Present? ==> s'.transcript == ""
    ensures s'.generatedCaption == ""
    ensures s' == s.(transcript := s'.transcript, generatedCaption := "")
  {
    var trimmed := if text.Present? then Trim(text.value) else "";
    s.(transcript := trimmed, generatedCaption := "")
  }

  /** The body `callGenerateAPI` posts: the images go along only when there
      are some, and the persona is the raw query parameter. */
  function RequestFor(s: Studio, userInput: string, mode: Option<RefineMode>,
                      encode: ImageUpload.File -> GenerateContentRoute.ImagePart): (c: ApiCall)
    ensures c.request.userInput == Present(userInput)
    ensures c.request.contentType == Present(s.contentType) && c.contentType == s.contentType
    ensures c.request.images.Present? <==> |s.uploaded| > 0
    ensures c.request.images.Present? ==>
              |c.request.images.value| == |s.uploaded| &&
              forall i :: 0 <= i < |s.uploaded| ==> c.request.images.value[i] == encode(s.uploaded[i])
    ensures c.request.tone == Present(s.tone) && c.request.targetAudience == Present(s.targetAudience)
    ensures s.personaId.Some? ==> c.request.persona == Present(s.personaId.value)
    ensures s.personaId.None? ==> c.request.persona == Null
    ensures c.refinementMode == mode
  {
    var images := seq(|s.uploaded|, i requires 0 <= i < |s.uploaded| => encode(s.uploaded[i]));
    var persona := if s.personaId.Some? then Present(s.personaId.value) else Null;
    ApiCall(GenerateContentRoute.Request(Present(s.contentType), persona, Present(userInput),
                                         if |images| > 0 then Present(images) else Undefined,
                                         Present(s.tone), Present(s.targetAudience)),
            mode, s.contentType)
  }

  /** `handleGenerate`: a transcript of only white space gets an error and no
      request; otherwise the error is cleared, the page waits, and the
      trimmed transcript is sent. */
  function HandleGenerate(s: Studio, encode: ImageUpload.File -> GenerateContentRoute.ImagePart): (r: (Studio, Option<ApiCall>))
    ensures r.1.Some? <==> !AllWhiteSpace(s.transcript)
    ensures r.1.None? ==> r.0 == s.(error := EmptyInputMessage)
    ensures r.1.Some? ==>
              && r.0 == s.(isGenerating := true, error := "")
              && r.1.value == RequestFor(s, Trim(s.transcript), None, encode)
              && r.1.value.request.userInput.value != ""
  {
    var t := Trim(s.transcript);
    if t == "" then (s.(error := EmptyInputMessage), None)
    else (s.(isGenerating := true, error := ""), Some(RequestFor(s, t, None, encode)))
  }

  /** `handleRefine`: does nothing for an empty transcript; otherwise sends
      the trimmed transcript with the refinement. */
  function HandleRefine(s: Studio, mode: RefineMode, encode: ImageUpload.File -> GenerateContentRoute.ImagePart): (r: (Studio, Option<ApiCall>))
    ensures s.transcript == "" <==> r.1.None?
    ensures r.1.None? ==> r.0 == s
    ensures r.1.Some? ==>
              && r.0 == s.(isGenerating := true, error := "")
              && r.1.value == RequestFor(s, Trim(s.transcript), Some(mode), encode)
  {
    if s.transcript == "" then (s, None)
    else (s.(isGenerating := true, error := ""), Some(RequestFor(s, Trim(s.transcript), Some(mode), encode)))
  }

  /** The reply to a request: a result shows the content and the tips for the
      content type the request was sent with; a failure shows the message of
      the handler that sent it and keeps the old result. */
  function Complete(s: Studio, call: ApiCall, reply: ApiReply): (s': Studio)
    ensures !s'.isGenerating
    ensures reply.ApiOk? ==>
              s' == s.(generatedCaption := reply.content, isGenerating := false,
                       photoTips := PhotoTips(call.contentType))
    ensures reply.ApiFailed? ==>
              s' == s.(error := if call.refinementMode.None? then GenerateFailedMessage else RefineFailedMessage,
                       isGenerating := false)
  {
    match reply
    case ApiOk(content) =>
      s.(generatedCaption := content, isGenerating := false, photoTips := PhotoTips(call.contentType))
    case ApiFailed =>
      s.(error := if call.refinementMode.None? then GenerateFailedMessage else RefineFailedMessage, isGenerating := false)
  }

  /** A generate request and its reply: a failure leaves the page as it was
      apart from the error and the spinner, so the transcript, the uploads and
      the previous result stay; a result shows the tips for the type the
      request was sent with, even if the selection changed in the meantime. */
  lemma GenerateThenReply(s: Studio, later: Studio, content: string,
                          encode: ImageUpload.File -> GenerateContentRoute.ImagePart)
    requires HandleGenerate(s, encode).1.Some?
    ensures var r := HandleGenerate(s, encode);
            && Complete(r.0, r.1.value, ApiFailed) == s.(error := GenerateFailedMessage, isGenerating := false)
            && Complete(r.0, r.1.value, ApiOk(content))
                 == s.(generatedCaption := content, error := "", isGenerating := false, photoTips := PhotoTips(s.contentType))
            && Complete(later, r.1.value, ApiOk(content)).photoTips == PhotoTips(s.contentType)
  {
  }

  /** The same for a refinement: a failure shows the refine message and keeps
      the result being refined. */
  lemma RefineThenReply(s: Studio, mode: RefineMode, content: string,
                        encode: ImageUpload.File -> GenerateContentRoute.ImagePart)
    requires HandleRefine(s, mode, encode).1.Some?
    ensures var r := HandleRefine(s, mode, encode);
            && Complete(r.0, r.1.value, ApiFailed) == s.(error := RefineFailedMessage, isGenerating := false)
            && Complete(r.0, r.1.value, ApiOk(content))
                 == s.(generatedCaption := content, error := "", isGenerating := false, photoTips := PhotoTips(s.contentType))
  {
  }

  /** A request the generate button sends for one of the three content types
      always passes the route's checks, and the route sees images exactly
      when files were uploaded. */
  lemma GenerateRequestIsValid(s: Studio, encode: ImageUpload.File -> GenerateContentRoute.ImagePart)
    requires s.contentType in GenerateContentRoute.ValidContentTypes
    requires HandleGenerate(s, encode).1.Some?
    ensures var v := GenerateContentRoute.Validate(HandleGenerate(s, encode).1.value.request);
            v.Success? && v.value.hasImages == (|s.uploaded| > 0) &&
            v.value.userInput == Trim(s.transcript)
  {
  }

  /** The refine guard is weaker than the generate guard: a transcript of
      only spaces passes it, and the route rejects the empty input sent. */
  lemma BlankRefineIsRejected(s: Studio, mode: RefineMode, encode: ImageUpload.File -> GenerateContentRoute.ImagePart)
    requires s.transcript == "  "
    ensures HandleGenerate(s, encode).1.None?
    ensures HandleRefine(s, mode, encode).1.Some?
    ensures GenerateContentRoute.Validate(HandleRefine(s, mode, encode).1.value.request)
              == Failure(GenerateContentRoute.Response(400, GenerateContentRoute.ErrorBody(GenerateContentRoute.MissingFieldsMessage, None)))
  {
  }

  /** What the voice button delivers after a session is stored unchanged,
      and it is enough to enable a generate request. */
  lemma DeliveredTranscriptGenerates(s: Studio, v: VoiceInput.Voice,
                                     encode: ImageUpload.File -> GenerateContentRoute.ImagePart)
    requires VoiceInput.DeliverOnEnd(v, true).Some?
    ensures var t := VoiceInput.DeliverOnEnd(v, true).value;
            var s' := HandleTranscript(s, Present(t));
            s'.transcript == t && HandleGenerate(s', encode).1.Some?
  {
  }
}
