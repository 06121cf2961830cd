# paimai-ubi core, modelled in Dafny

paimai-ubi is a small web studio that helps local sellers write social-media posts. Sellers speak or type a description of what they sell, attach photos, and get a caption, a promotion text or a video plan back from a text model. Photos can be enhanced either in the browser or by an image model.

This project models the parts of the studio that are self-contained logic. Each module follows one file of the repository.

- `Js` (js.dfy): the few JavaScript semantics the others rely on:
  - `undefined`/`null`/present fields;
  - truthiness of a string;
  - `String.prototype.trim` with ECMAScript's white-space set;
  - `String.prototype.includes`.
- `ImageEnhance` (image_enhance.dfy): the canvas filter of `src/lib/imageEnhance.js`.
  - The options are merged over their defaults field by field.
  - The colour pass applies brightness, then contrast, then saturation, then a clamp, to each RGBA pixel. The alpha byte is left alone.
  - An optional 3×3 sharpening convolution with edge-replicated sampling is blended towards the original.
  - Both passes exist twice: as functions that say what each byte becomes, and as methods with the loops of the source, proved equal.
  - A `Uint8ClampedArray` store is ECMAScript's ToUint8Clamp: clamp to [0, 255], then round half to even.
- `ImageEnhanceProps` (image_enhance_props.dfy): properties of the filter, stated as lemmas:
  - where the contrast factor is neutral;
  - identity settings;
  - the luma weights' drift;
  - a worked sample pixel;
  - uniform and single-pixel images as fixed points of sharpening.
- `ImageUpload` (image_upload.dfy): the upload list of `ImageUpload.jsx`.
  - Files and preview handles are kept as two paired lists.
  - Each file is checked for type and size.
  - A batch has a count cap and is added all or nothing.
  - Remove works by index.
  - Preview URLs are modelled as numbered tokens.
- `VoiceInput` (voice_input.dfy): the transcript accumulator of `VoiceInput.jsx`.
  - Recognition events are plain input values.
  - Final fragments are appended, each followed by a space. The interim text is replaced on every event.
  - The transcript is delivered trimmed, and only when it is not empty, when the session ends.
  - The button toggles the session, and the shown text is composed from the transcript and the interim text.
- `GenerateContentRoute` (generate_route.dfy): the `POST` handler of the content route.
  - Required fields are checked, then the content type.
  - Tone and audience get their defaults.
  - Errors are classified by substring into 500/429/500.
  - The prompt builder and the text model are one function parameter.
- `EnhanceImageRoute` (enhance_route.dfy): the `POST` handler of the image route.
  - The image fields are checked, then the API key.
  - The caller's instructions are used, else the built-in ones.
  - The two image models are tried in order: the first inline image wins, otherwise the last error is reported.
  - The model SDK is a function parameter.
- `MagicStudio` (magic_studio.dfy): the pure helpers of the studio page:
  - the persona table;
  - transcript hand-over and the generate/refine guards;
  - the request body sent to the content route;
  - photo tips;
  - the offline template picker `generateContent` (src/app/magic/page.jsx:265), which returns which template is used with its input-dependent parts. Nothing in the page calls it, so this part models code that never runs. The literal template text is not modelled.

Sources are cited by path relative to the repository root.

## Model

| member | source | states |
|---|---|---|
| Js.Trim | src/components/VoiceInput.jsx:74 | `trim()` gives an infix of the input that neither starts nor ends with white space, with only white space cut off around it; it is empty exactly when the input is all white space |
| Js.TrimIdempotent | src/app/magic/page.jsx:121 | trimming text that was already trimmed changes nothing |
| Js.Includes | src/app/api/generate-content/route.js:61-72 | `includes(sub)` holds exactly when `sub` occurs at some position of the string |
| ImageEnhance.Resolve | src/lib/imageEnhance.js:13-18 | each factor left `undefined` takes its own default (1.2, 1.15, 1.25, 1.1); each given factor is used as is; an explicit `null` reaches the arithmetic as 0 |
| ImageEnhance.ResolveFieldsIndependent | src/lib/imageEnhance.js:13-18 | a resolved factor depends on its own option only |
| ImageEnhance.AutoEnhanceSettings | src/lib/imageEnhance.js:154-161 | auto-enhance runs with 1.15 / 1.1 / 1.2 / 1.05, so it always sharpens |
| ImageEnhance.Clamp | src/lib/imageEnhance.js:66-68 | `Math.max(0, Math.min(255, x))` lies in [0, 255], keeps in-range values and maps values below 0 to 0 and above 255 to 255 |
| ImageEnhance.ToByte | src/lib/imageEnhance.js:66-68 | a typed-array store gives a byte; it is 0 at or below 0, 255 at or above 255, and within 0.5 of an in-range value |
| ImageEnhance.ToByteOfByte | src/lib/imageEnhance.js:138-140 | storing a value that is already a byte keeps it |
| ImageEnhance.ColourPass | src/lib/imageEnhance.js:43-69 | the colour pass yields a buffer of the same length whose bytes are all in [0, 255], with every alpha byte unchanged |
| ImageEnhance.ColouredPixel | src/lib/imageEnhance.js:44-68 | bytes 0–2 of each pixel become the clamped, stored results of brightness, then contrast, then saturation of that pixel's own R, G, B; byte 3 is copied |
| ImageEnhance.ApplyColourPass | src/lib/imageEnhance.js:43-69 | the four-byte-step loop computes exactly the colour pass |
| ImageEnhance.NextPixelFits | src/lib/imageEnhance.js:43 | stepping by 4 through a whole-pixel buffer never reads past the last pixel |
| ImageEnhance.ClampCoord | src/lib/imageEnhance.js:126-127 | a clamped coordinate is always on the grid, equals the coordinate when that is on the grid, and sticks to the near edge otherwise |
| ImageEnhance.SampleOffset | src/lib/imageEnhance.js:126-128 | every neighbour read `srcOff .. srcOff+3` is a whole pixel inside the 4·w·h buffer when w, h ≥ 1 |
| ImageEnhance.Neighbourhood | src/lib/imageEnhance.js:124-129 | the kernel reads exactly nine values per channel, one per tap |
| ImageEnhance.NeighbourAt | src/lib/imageEnhance.js:126-133 | tap (cx, cy) of each channel's neighbourhood is the byte the nested loops read at that tap |
| ImageEnhance.SharpenPass | src/lib/imageEnhance.js:104-147 | sharpening writes a fresh w×h buffer of bytes, computed from the input only, with every alpha byte copied |
| ImageEnhance.SharpenedByteAt | src/lib/imageEnhance.js:121-140 | byte c of pixel (x, y) after sharpening is the stored blend of the original byte towards the kernel sum around (x, y); alpha is copied |
| ImageEnhance.ConvolveRow | src/lib/imageEnhance.js:125-134 | one kernel row adds its three weighted taps to each channel's running sum |
| ImageEnhance.ConvolveAt | src/lib/imageEnhance.js:122-135 | the two nested tap loops compute the full kernel sum of each colour channel |
| ImageEnhance.StorePixelExtends | src/lib/imageEnhance.js:138-140 | writing one pixel's three blended bytes extends the sharpened prefix by exactly that pixel |
| ImageEnhance.PixelCoords | src/lib/imageEnhance.js:119-121 | pixel `y*w + x` of a row-major grid sits at column x and row y |
| ImageEnhance.PixelInRange | src/lib/imageEnhance.js:121 | every destination offset `dstOff .. dstOff+3` is inside the buffer |
| ImageEnhance.SharpenRow | src/lib/imageEnhance.js:120-141 | one row of the loop sharpens exactly that row's pixels, left to right |
| ImageEnhance.Sharpen | src/lib/imageEnhance.js:104-147 | the row-by-row loop computes exactly the sharpening pass |
| ImageEnhance.EnhancePixels | src/lib/imageEnhance.js:43-77 | the filter keeps the image's size and every alpha byte; it sharpens the colour-pass result only when sharpness > 1, and otherwise returns the colour-pass result |
| ImageEnhance.Enhance | src/lib/imageEnhance.js:43-77 | the in-place pass followed by the optional sharpening computes the filter |
| ImageEnhanceProps.ContrastNeutralOnlyAtZero | src/lib/imageEnhance.js:54 | the contrast factor is exactly 1 at contrast 0 and nowhere else |
| ImageEnhanceProps.ContrastAtOne | src/lib/imageEnhance.js:15 | at contrast 1.0, which the option's comment calls normal, the factor is 18389/8109, about 2.268 |
| ImageEnhanceProps.ColourPassIdentity | src/lib/imageEnhance.js:48-68 | with brightness 1, contrast 0 and saturation 1 the colour pass returns the buffer unchanged |
| ImageEnhanceProps.GreyDriftsUnderSaturation | src/lib/imageEnhance.js:60-63 | because the luma weights add up to 0.9999, a grey pixel is scaled by 0.9999 + 0.0001·s and is not a fixed point of saturation unless s = 1 or it is black |
| ImageEnhanceProps.SampleColour | src/lib/imageEnhance.js:48-63 | with the default factors, pixel (100, 150, 200) becomes the exact reals given |
| ImageEnhanceProps.SampleBytes | src/lib/imageEnhance.js:66-68 | those reals are stored as 75, 255, 255 |
| ImageEnhanceProps.DefaultsOnSamplePixel | src/lib/imageEnhance.js:43-69 | with the default factors, the colour pass turns the pixel [100, 150, 200, 255] into [75, 255, 255, 255] |
| ImageEnhanceProps.KernelSumsToOne | src/lib/imageEnhance.js:110-114 | the kernel weights add up to 1 |
| ImageEnhanceProps.DotOfConstant | src/lib/imageEnhance.js:124-135 | the kernel applied to n equal values v gives v times the sum of the first n weights |
| ImageEnhanceProps.UniformNeighbourhood | src/lib/imageEnhance.js:126-133 | in a uniform image every tap of channel c reads that channel's common value |
| ImageEnhanceProps.UniformConvolved | src/lib/imageEnhance.js:122-135 | in a uniform image each channel's kernel sum is the channel's value |
| ImageEnhanceProps.BlendTowardsItself | src/lib/imageEnhance.js:138-140 | blending a value towards itself gives the value, whatever the amount |
| ImageEnhanceProps.UniformSharpenedByte | src/lib/imageEnhance.js:121-140 | every byte of a uniform image survives sharpening |
| ImageEnhanceProps.UniformIsSharpenFixedPoint | src/lib/imageEnhance.js:104-147 | a uniform image is a fixed point of sharpening for every amount |
| ImageEnhanceProps.SinglePixelIsSharpenFixedPoint | src/lib/imageEnhance.js:104-147 | a 1×1 image is a fixed point of sharpening |
| ImageEnhanceProps.EnhanceIdentity | src/lib/imageEnhance.js:43-77 | identity colour factors without sharpening return the image unchanged |
| ImageUpload.ResolveLimits | src/components/ImageUpload.jsx:6-10 | a limit left `undefined` defaults to 3 images and 10 MB; a given one is kept; an explicit `null` compares as 0 |
| ImageUpload.ValidateFile | src/components/ImageUpload.jsx:17-29 | a file passes exactly when its type is one of the four allowed and its size is at most maxSizeMB·1024·1024; the type is checked first |
| ImageUpload.DefaultSizeBoundary | src/components/ImageUpload.jsx:18-27 | with the defaults, 10485760 bytes pass, one byte more is too large, and a GIF is refused for its type first |
| ImageUpload.FirstInvalid | src/components/ImageUpload.jsx:49-65 | the batch check finds no error exactly when every file passes |
| ImageUpload.FirstInvalidAt | src/components/ImageUpload.jsx:50-63 | the error found is that of the first failing file in order |
| ImageUpload.Mint | src/components/ImageUpload.jsx:71-79 | one new, distinct preview handle per new file, in order |
| ImageUpload.ProcessFiles | src/components/ImageUpload.jsx:32-97 | the count cap is checked first. A batch is refused with no change to either list and no notification, or accepted whole: files and previews are appended in order and the parent is notified with the new list |
| ImageUpload.SelectFiles | src/components/ImageUpload.jsx:100-131 | an empty selection or drop does nothing; any other goes to batch processing |
| ImageUpload.DropIndex | src/components/ImageUpload.jsx:147-148 | filtering out index i drops exactly that element and keeps the others in order, or keeps the list when there is no element i |
| ImageUpload.Remove | src/components/ImageUpload.jsx:134-160 | removing drops position i from both lists, revokes that preview, clears the error and notifies the parent with the new list |
| ImageUpload.InitialInv | src/components/ImageUpload.jsx:11-12 | the empty start state satisfies the pairing invariant |
| ImageUpload.ProcessFilesPreservesInv | src/components/ImageUpload.jsx:70-90 | adding keeps the lists equally long and the preview handles distinct |
| ImageUpload.RemovePreservesInv | src/components/ImageUpload.jsx:147-151 | removing keeps the lists equally long and the preview handles distinct |
| ImageUpload.ProcessFilesRespectsCap | src/components/ImageUpload.jsx:43-47 | a batch either leaves the list as it was or leaves it within the cap, so a list within the cap stays within it |
| ImageUpload.CountCheckedFirst | src/components/ImageUpload.jsx:43-47 | a batch over the cap reports the count error whatever its files are |
| ImageUpload.RefusedBatchReportsFirstError | src/components/ImageUpload.jsx:50-63 | a batch within the cap with an invalid file reports the first invalid file's error and adds nothing |
| ImageUpload.RemoveUndoesAdd | src/components/ImageUpload.jsx:70-90 | removing the last image straight after adding it alone restores both lists |
| VoiceInput.FinalTextSnoc | src/components/VoiceInput.jsx:42-51 | visiting one more result extends the final text at its end by that result's contribution |
| VoiceInput.InterimTextSnoc | src/components/VoiceInput.jsx:42-51 | visiting one more result extends the interim text at its end by that result's contribution |
| VoiceInput.FinalTextEmptyIff | src/components/VoiceInput.jsx:46-53 | an event's final text is empty exactly when none of its visited results is final |
| VoiceInput.Visit | src/components/VoiceInput.jsx:43-50 | a final fragment is appended to the final text followed by one space; any other fragment is appended to the interim text |
| VoiceInput.CollectResults | src/components/VoiceInput.jsx:39-51 | the loop from `resultIndex` builds the final text (each final fragment plus a space) and the interim text (the other fragments), in order |
| VoiceInput.OnStart | src/components/VoiceInput.jsx:31-35 | starting a session marks it live and resets the running transcript |
| VoiceInput.OnResult | src/components/VoiceInput.jsx:37-59 | the running transcript grows by exactly the event's final text; the shown transcript follows it only when that text is not empty; the interim text is replaced |
| VoiceInput.OnResultFinalIff | src/components/VoiceInput.jsx:53-58 | an event without final results changes only the interim text; one with a final result strictly grows the transcript |
| VoiceInput.RunningAccumulates | src/components/VoiceInput.jsx:53-56 | over a run of events the running transcript is the old one followed by each event's final text in turn |
| VoiceInput.InterimIsLast | src/components/VoiceInput.jsx:58 | after a run of events the interim text is the last event's |
| VoiceInput.OnEnd | src/components/VoiceInput.jsx:68-70 | ending a session marks it over and changes nothing else: no text, and not whether speech is supported |
| VoiceInput.DeliverOnEnd | src/components/VoiceInput.jsx:72-79 | after a session ends, the parent gets the trimmed transcript exactly when it has a callback and the transcript is not all white space |
| VoiceInput.SessionDelivers | src/components/VoiceInput.jsx:31-79 | a session delivers exactly the trimmed concatenation of its final fragments, whatever came before it |
| VoiceInput.Click | src/components/VoiceInput.jsx:92-116 | a click alerts when unsupported and changes nothing; otherwise it starts (clearing all three texts) when idle and stops when listening |
| VoiceInput.CurrentText | src/components/VoiceInput.jsx:118 | the shown text starts with the transcript, then has a space and the interim text exactly when the interim text is not empty |
| VoiceInput.StartClearsScreen | src/components/VoiceInput.jsx:98-102 | a click that starts a session leaves nothing on screen |
| GenerateContentRoute.WithDefault | src/app/api/generate-content/route.js:8 | a destructuring default replaces only `undefined`; `null` and present values are kept |
| GenerateContentRoute.Validate | src/app/api/generate-content/route.js:8-37 | a falsy contentType or userInput gives the missing-fields 400. Otherwise a type outside caption/promotion/video gives the invalid-type 400. Otherwise the generator gets the request's fields with tone and audience defaulted, and hasImages true exactly when images is a non-empty list |
| GenerateContentRoute.Classify | src/app/api/generate-content/route.js:57-90 | a message containing `API_KEY` is the key error (500); otherwise `quota` or `rate limit` gives 429; otherwise the generic 500. The message is always passed on as details |
| GenerateContentRoute.Post | src/app/api/generate-content/route.js:4-91 | the handler answers 200 exactly when the request validates and the generator yields text; the 200 body echoes contentType and persona with the text; a validation failure is answered as validated. An error thrown while reading the body, or by the generator after the request validates, is classified by its message into the API-key 500, the quota/rate-limit 429 or the generic 500, with the message as details |
| GenerateContentRoute.PostStatuses | src/app/api/generate-content/route.js:11-89 | every response is 200, 400, 429 or 500 |
| GenerateContentRoute.RejectedRequestIgnoresGenerator | src/app/api/generate-content/route.js:10-25 | a request that fails validation gets a 400 without the generator being consulted |
| GenerateContentRoute.MissingFieldsCheckedFirst | src/app/api/generate-content/route.js:11-25 | an unknown type with an empty input is reported as a missing field |
| GenerateContentRoute.NullToneKept | src/app/api/generate-content/route.js:8 | an explicit `null` tone reaches the generator as `null` |
| GenerateContentRoute.ApiKeyWinsOverQuota | src/app/api/generate-content/route.js:61-72 | a message naming both the key and the quota is a key error |
| GenerateContentRoute.QuotaIs429 | src/app/api/generate-content/route.js:72-80 | a quota message is a 429 |
| EnhanceImageRoute.FirstInline | src/app/api/enhance-image/route.js:115-118 | the image taken is that of the first part, in order, that carries inline data; there is none exactly when no part carries any |
| EnhanceImageRoute.Attempt | src/app/api/enhance-image/route.js:112-142 | a model succeeds exactly when its first candidate has a part with inline data. A thrown error keeps its message. No candidates, or no inline part, is the 'No image data in response' failure |
| EnhanceImageRoute.TryFromFirstSuccess | src/app/api/enhance-image/route.js:79-145 | the image returned comes from the first model, in order, that succeeds; every model tried before it failed |
| EnhanceImageRoute.TryFromAllFail | src/app/api/enhance-image/route.js:79-148 | the loop ends without an image exactly when every model fails, and then the last model's error is the one kept |
| EnhanceImageRoute.RunModels | src/app/api/enhance-image/route.js:79-145 | the `for ... of` loop with its `lastError` variable computes the fallback |
| EnhanceImageRoute.ChooseInstructions | src/app/api/enhance-image/route.js:69 | the caller's instructions are used exactly when they are truthy, else the built-in ones |
| EnhanceImageRoute.RequestMessage | src/app/api/enhance-image/route.js:94-104 | every model is sent the chosen instructions with the request's own image data and MIME type |
| EnhanceImageRoute.Post | src/app/api/enhance-image/route.js:7-159 | 400 unless image, image.data and image.mimeType are all truthy; then a missing key is a 500 with the key message. The answer is 200 exactly when a model yields an image, and its body carries that image's MIME type and data and the winning model's name. When every model fails it is a 500 whose details are the last error's message (the built-in message only if no model was tried); a body that cannot be read is a 500 with the thrown message |
| EnhanceImageRoute.PreferredModelWins | src/app/api/enhance-image/route.js:74-133 | when the first model yields an image, the second model's reply does not matter |
| EnhanceImageRoute.BothFailReportsLastError | src/app/api/enhance-image/route.js:74-148 | when both models fail, the second model's error is reported, so the "all models failed" text never appears |
| EnhanceImageRoute.PostAnswersFirstWorkingModel | src/app/api/enhance-image/route.js:74-144 | a 200 response carries the image of a model in the list whose attempt produced exactly that image, and every model before it failed |
| EnhanceImageRoute.PostPreferredModel | src/app/api/enhance-image/route.js:74-133 | with an image and a key, the preferred model's image is the response, named after that model, whatever the fallback would have answered |
| EnhanceImageRoute.PostAllModelsFail | src/app/api/enhance-image/route.js:74-159 | with an image and a key, a request every model fails on is a 500 whose details are the fallback model's error |
| EnhanceImageRoute.OnlyFirstCandidateCounts | src/app/api/enhance-image/route.js:112-138 | a first candidate without inline data is a failure even when a later candidate has an image |
| MagicStudio.PersonaNamed | src/app/magic/page.jsx:31-53 | a persona name resolves exactly when it is one of the table's three keys, and to the persona of that key |
| MagicStudio.CurrentPersona | src/app/magic/page.jsx:55 | the page shows a persona exactly when the `persona` query parameter is one of the table's keys |
| MagicStudio.KeyNamesResolve | src/app/magic/page.jsx:31-55 | each persona's key leads back to that persona |
| MagicStudio.LandingLinksMissPersonas | src/app/page.js:16-32 | of the landing page's demo links as written, only `pa_meaw` resolves; `kanah` and `haris` open the studio with no persona |
| MagicStudio.DemoCardPersona | src/app/magic/page.jsx:39-46 | with the corrected ids, each demo card opens the studio with the persona whose key it carries |
| MagicStudio.CorrectedLandingLinksResolve | src/app/magic/page.jsx:39-46 | with the corrected ids, all three demo cards resolve, each to a different persona |
| MagicStudio.RemoveSpaces | src/app/magic/page.jsx:281 | `replace(/ /g, '')` leaves no U+0020 and keeps exactly as many of every other character |
| MagicStudio.RemoveSpacesConcat | src/app/magic/page.jsx:281 | space removal works piecewise, so the remaining characters keep their order |
| MagicStudio.RemoveSpacesFixedIff | src/app/magic/page.jsx:281 | a string is unchanged by space removal exactly when it has no space |
| MagicStudio.RemoveSpacesIdempotent | src/app/magic/page.jsx:281 | removing spaces twice is removing them once |
| MagicStudio.KindNamed | src/app/magic/page.jsx:495-504 | the picker knows exactly the three content types the route accepts, and each name selects its own kind |
| MagicStudio.PhotoTips | src/app/magic/page.jsx:164-188 | a content type gets its own tip list: 5 tips for caption, the promotion list of 4 for promotion, the video list of 4 for video. Any other type gets the caption list |
| MagicStudio.SelectTemplate | src/app/magic/page.jsx:494-506 | a known type uses the persona's template when the persona is one of the three keys, else that type's default; an unknown type uses the default caption |
| MagicStudio.GenerateDraft | src/app/magic/page.jsx:265-281 | the topic is the input, or the stock phrase when the input is empty. Caption and promotion templates carry the image note exactly when there are images. Caption and video templates carry the topic as a space-free hashtag in their hashtag line |
| MagicStudio.UnknownTypeDraftsGenericCaption | src/app/magic/page.jsx:494-506 | an unknown type drafts the generic caption, with a hashtag |
| MagicStudio.HandleTranscript | src/app/magic/page.jsx:119-125 | a handed-over transcript is stored trimmed (`null` and `undefined` as empty), the last result is cleared, and nothing else changes |
| MagicStudio.RequestFor | src/app/magic/page.jsx:229-243 | the body sent carries the selected type, tone and audience, the given input and the refinement. The persona is the query parameter, or `null` when the page was opened without one. Images are included, one per uploaded file in order, exactly when there are any |
| MagicStudio.HandleGenerate | src/app/magic/page.jsx:128-144 | a white-space transcript sets an error and sends nothing; any other clears the error, starts waiting and sends the non-empty trimmed transcript |
| MagicStudio.HandleRefine | src/app/magic/page.jsx:147-161 | refine does nothing exactly when the transcript is empty; otherwise it sends the trimmed transcript with the mode |
| MagicStudio.Complete | src/app/magic/page.jsx:128-258 | a result shows the content and the tips for the type it was sent with; a failure changes nothing but the error, which becomes the sending handler's message, and the spinner, which stops |
| MagicStudio.GenerateThenReply | src/app/magic/page.jsx:128-258 | after the generate button, a failed reply leaves transcript, uploads and previous result as they were and shows the generate error; a result shows the content with the tips of the type selected when the request was sent, even if the selection changed while waiting |
| MagicStudio.RefineThenReply | src/app/magic/page.jsx:147-258 | after a refine button, a failed reply keeps the result being refined and shows the refine error; a result replaces it and clears the error |
| MagicStudio.GenerateRequestIsValid | src/app/magic/page.jsx:128-138 | what the generate button sends always passes the route's checks, with images seen exactly when files were uploaded |
| MagicStudio.BlankRefineIsRejected | src/app/magic/page.jsx:147-155 | a transcript of spaces is stopped by the generate guard but passes the refine guard, and the route rejects the empty input sent |
| MagicStudio.DeliveredTranscriptGenerates | src/app/magic/page.jsx:119-138 | what the voice button delivers is stored unchanged and enables a generate request |

## Left out

- Browser decoding and encoding are not modelled: FileReader, `Image`, `drawImage`/`getImageData`/`putImageData` and `toDataURL` with its quality. The canvas is a plain byte buffer, so premultiplied-alpha round trips are not covered.
- Floating point is not modelled: all filter arithmetic is on exact reals rather than IEEE doubles. A real value that lands exactly on .5 after rounding error may therefore be stored differently.
- ImageEnhance.ContrastFactor: requires contrast·100 ≠ 259. The source divides by zero there, and the resulting Infinity/NaN bytes are not modelled.
- ImageEnhance.ColourPass: its contract states range, length and alpha; the per-byte formula is stated by `ColouredPixel`. No lemma says a pixel's result depends on that pixel alone.
- The filter's options are numbers only. Non-numeric options and `null` (which JavaScript arithmetic reads as 0) are modelled only through the `Field` defaulting, not through coercion of other types.
- Timers are not modelled: the 100 ms delivery delay in the voice button and the 2 s "copied" flag. Delivery is a separate event (`DeliverOnEnd`) that reads the transcript when it fires.
- The clipboard, `alert`, console logging and all rendering are not modelled. The drag highlight state and the speech API object itself are also out. Recognition errors only log, so they are not modelled either.
- Blob URL creation and revocation are not modelled. Previews are numbered tokens, and revocation is reported in the handler's outcome. Revoking every URL on unmount is not modelled.
- Only string-valued JSON fields are modelled. Property lookups consider only the tables' own keys: a name such as `constructor` that reaches `Object.prototype` is treated like any other unknown name.
- The prompt builder and the text generator of `src/lib/gemini` are not part of this model. They are the parameter `generate`; `ragContext` and `refinementMode` pass through unmodelled.
- The Gemini image SDK is the parameter `call`. When a reply has no readable candidate content, the route's own reads of it throw (`response.candidates[0].content.parts` at src/app/api/enhance-image/route.js:113, `enhancedImageData.length` at :124); that throw is modelled as the call's thrown error.
- The studio's template bodies are not modelled as text. A draft is the chosen template plus the topic, image note and hashtag that fill it.
- Supabase is not modelled: the studio's user and knowledge-base loading, and the login and profile pages.
- Reading uploaded files as base64 is the parameter `encode`; a FileReader failure is not modelled.
- The response's `content` is taken to be a string.
- The health-check `GET` handlers are not modelled; they return a fixed status object.

## Findings

| source | as written | input that shows it | evidently intended | confidence | as-written member | corrected member |
|---|---|---|---|---|---|---|
| src/app/page.js:24 | the demo cards link to `persona=kanah` and `persona=haris`, but the studio's persona table has the keys `kanah_batik` and `betong_tour` (its own comments at src/app/magic/page.jsx:39 and :46 say the keys were chosen to match the landing page's links) | opening the second or third demo card: `CurrentPersona(Some("kanah"))` and `CurrentPersona(Some("haris"))` are both `None`, so the studio shows no persona banner | the cards carry the table's keys `kanah_batik` and `betong_tour`, so every demo card opens its persona | high; not executed | MagicStudio.LandingLinksMissPersonas | MagicStudio.CorrectedLandingLinksResolve |
