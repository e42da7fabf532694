# image-ai-utils-krita, modelled in Dafny

This project models the logic of a Krita plugin that sends image-generation requests to a remote
"image AI utils" server and lays the results out as layers. The modelled parts are:

- **The current client** (`image_ai_utils/common/client.py`, module `Client`):
  - base-URL normalisation;
  - the request bodies of text-to-image, image-to-image, inpainting and gobig;
  - the WebSocket exchange. The client sends a credentials frame and then the request frame, then
    reads `progress` frames until the server closes. The exchange succeeds only on a normal close
    whose last frame says `finished`;
  - the HTTP upscale and face-restoration calls;
  - the class-level `client()` cache.
- **The older HTTP-only client** (`image_ai_utils/client.py`, module `LegacyClient`).
- **The first client** (`diffusion_tools/client.py`, module `DiffusionClient`).
- **The image codec** (`image_ai_utils/common/utils.py`, module `Codec`). Images travel as
  `data:<mime>;base64,<payload>` URLs: section 3 of RFC 2397 with the standard alphabet of
  section 4 of RFC 4648. The module proves that decoding an encoded image gives back its bytes.
- **The two diffusion dialogs**:
  - `image_ai_utils/common/ui/diffusion_dialog.py` (module `Dialog`) and the first version in
    `diffusion_tools/ui/diffusion_dialog.py` (module `LegacyDialog`);
  - the shared selection state (module `Selection`): one flag per generated variant, the buttons
    it enables, the two-column grid, and the variants kept in order.
- **The Krita docker** (`image_ai_utils/diffusion_tools.py`, module `Dock`):
  - the working rectangle;
  - the test that the active layer is a paint layer;
  - the insertion anchor;
  - the `diffusion i` layers;
  - the search for the inpainting mask;
  - the upscale target size.

Supporting modules are `Wrappers` (Option, Result), `Text` (the Python string operations the code
relies on: `startswith`, `endswith`, `in`, `replace`, `split`, `lower`, `f'{n}'`) and `Json` (JSON
values and request dicts).

The network, Krita, PIL and the modal dialogs are inputs:
- a WebSocket session is the list of frames the server sends and how the socket ends;
- an HTTP call is its reply, or the name of the exception httpx raised;
- a document is the value the code reads from Krita, and Krita's mutators are recorded as calls;
- an image is a byte string. Between the clients and the dialogs it is the file PIL saved (PNG on the
  wire). From the docker into the dialog it is the raw pixel data Krita returns for the layer. Both
  travel in the same `Image` type, and the model does not convert between them;
- an `exec()` of a dialog is its outcome.

Object state that the source updates in place is held in classes:
- the client and its class-level cache;
- each dialog's `_result_images`, `_image_selection` and mode;
- the docker's dialog and the enabled state of its buttons.

The code is modelled as it is written. Where it behaves differently from what its authors
evidently meant, the model shows that behaviour:
- The common `client()` reads `Settings.settings().USE_TLS`, but the common Settings class has no
  `USE_TLS` field. `Settings.useTls` is `None` for that case, and `ClientCache.Get` then fails
  with an AttributeError.
- The older `client()` calls `Settings.settings()`, but `image_ai_utils/settings.py` has no such
  classmethod. This is the `NoAccessor` case.
- The common `test_connection` evaluates its result tuple and drops it. It returns None unless
  httpx raised.
- `gobig` always sends a `seed` key, `null` when no seed is given.
- `ESRGANModel.ESRNET_X4_PLUS` has the same value as `X4_PLUS`, so Python's Enum makes it an alias.
- The first dialog tests `isChecked` without calling it, so it never sends the seed.
- The first dialog's image-to-image passes a `strength` keyword that the stub client does not
  accept.
- The docker creates layers with the type `paintlayer` when inserting results, and `paintLayer`
  when applying an upscale or a restoration. Both are recorded as given.
- The two upscale calls that pass an undeclared keyword are listed under Findings.

## Model

| member | source | states |
|---|---|---|
| Client.EsrganValuesIdentify | image_ai_utils/common/client.py:19-31 | every ESRGAN model is found again from its wire value; ESRNET_X4_PLUS has the value of X4_PLUS |
| Client.ImageAIUtilsClient.constructor | image_ai_utils/common/client.py:51-68 | the HTTP and WebSocket base URLs are the TLS-dependent scheme plus the same normalised remainder; the credentials are kept |
| Client.SchemesFollowTls | image_ai_utils/common/client.py:58-63 | the HTTP URL starts with `https://` and the WebSocket URL with `wss://` exactly when TLS is on |
| Client.Remainder | image_ai_utils/common/client.py:52-56 | no contract of its own: the address with `/` appended when missing, then every `http://` and every `https://` deleted; SchemeIsDropped and InnerSchemeRemoved state what that gives |
| Client.SchemeIsDropped | image_ai_utils/common/client.py:52-56 | an address typed with `http://`, with `https://` or with no scheme normalises to the host with one trailing `/` |
| Client.InnerSchemeRemoved | image_ai_utils/common/client.py:55-56 | every `http://` is deleted, not only a leading one: `proxy/http://host` becomes `proxy/host/` |
| Client.SchemeCanReappear | image_ai_utils/common/client.py:55-56 | one pass of deletion can join the text around an occurrence into a new scheme: `hthttp://tp://` leaves exactly `http://`, so "no `http://` remains" is not a property of the remainder |
| Client.OnMessage | image_ai_utils/common/client.py:93-105 | a handled frame is a JSON object with `status`, and it becomes the response; a value is reported exactly for `progress` frames; a non-JSON frame, or a JSON object without `status`, raises WebSocketException |
| Client.Feed | image_ai_utils/common/client.py:93-105 | once a callback has raised, later frames change nothing |
| Client.FeedKeepsReports | image_ai_utils/common/client.py:100-105 | values already handed to the callback stay reported; later frames only append |
| Client.OnClose | image_ai_utils/common/client.py:87-91 | success exactly for close code 1000 with a last response whose `status` is `finished`, and it returns that response; any other code raises with the close message |
| Client.Exchange | image_ai_utils/common/client.py:76-120 | a refused connection raises with nothing reported; success needs a session that closed with code 1000 |
| Client.FeedClean | image_ai_utils/common/client.py:93-105 | the frames are handled without error exactly when each one is; the callback then receives the progress values in arrival order, and the response is the last frame |
| Client.ExchangeSucceeds | image_ai_utils/common/client.py:87-120 | the exchange succeeds exactly when the connection opened, every frame was handled, the close code is 1000 and the last frame says `finished`; it then returns that frame, and the callback saw every progress value in order |
| Client.AbnormalCloseFails | image_ai_utils/common/client.py:87-89 | once every frame was handled, a close code other than 1000 raises with the close message |
| Client.SilentServerFails | image_ai_utils/common/client.py:90-91 | a close with no frame received fails |
| Client.ImageAIUtilsClient.WebSocketRequest | image_ai_utils/common/client.py:70-120 | the loop over frames computes exactly the fold `Exchange`; the credentials frame is sent before the request frame, and nothing is sent when the connection is refused |
| Client.DiffusionBody | image_ai_utils/common/client.py:122-144 | for keyword arguments that are none of the method's named parameters (Python refuses those): `seed` is present exactly when given, with its value; `prompt`, `num_variants`, `num_inference_steps`, `guidance_scale` and `scaling_mode` are always the given ones; every keyword argument is kept with its value; `output_format` is `PNG` unless a keyword overrides it; no keys beyond the keywords and the seven the method writes |
| Client.SeedOnlyWhenGiven | image_ai_utils/common/client.py:134-144 | an image-to-image or inpainting body carries `seed` exactly when a seed is given, carries `mask` exactly when a mask is given, and asks for PNG |
| Client.ImageKwargs | image_ai_utils/common/client.py:212-227 | `mask` is added exactly when a mask is given; the source and mask travel as PNG data URLs and `strength` is the given one; the keys are at most `source_image`, `strength` and `mask`, none of them a named parameter of `do_diffusion_request` |
| Client.KeywordsAreNotParameters | image_ai_utils/common/client.py:122-132 | `source_image`, `strength`, `mask` and `aspect_ratio` are none of `do_diffusion_request`'s named parameters |
| Client.PngDataUrl | image_ai_utils/common/client.py:189 | an image sent as a PNG data URL starts with `data:image/png;base64,` and decodes back to the same bytes |
| Client.DecodeImage | image_ai_utils/common/client.py:149 | one entry decodes exactly when it is a string holding a valid data URL, and gives that URL's bytes |
| Client.Entries | image_ai_utils/common/client.py:149 | what `for image in images` yields: a list's items, a string's one-character strings, nothing for an empty dict; numbers, booleans, null and non-empty dicts give None |
| Client.IteratedImages | image_ai_utils/common/client.py:149 | a list decodes entry by entry; a value that cannot be iterated raises TypeError |
| Client.StringImages | image_ai_utils/common/client.py:149 | an empty string or empty dict gives no images, and a non-empty string fails on its first character unless that is a comma |
| Client.DecodeImages | image_ai_utils/common/client.py:148-149 | one image per entry, in order, each the decoding of its entry; a failure points at an entry that does not decode |
| Client.ResultEntry | image_ai_utils/common/client.py:148 | `response['result'][key]` succeeds exactly when `result` is an object holding the key |
| Client.ResultImages | image_ai_utils/common/client.py:148-149 | success implies `result` is an object whose `images` can be iterated, with one image per entry it yields, image k being the decoding of entry k |
| Client.ImageAIUtilsClient.DoDiffusionRequest | image_ai_utils/common/client.py:122-149 | posts the diffusion body on the named endpoint after the credentials; the exchange's error is the result's error; otherwise the result is the decoded `result.images` |
| Client.ImageAIUtilsClient.TextToImage | image_ai_utils/common/client.py:151-172 | endpoint `text_to_image`; the body is the diffusion body with `aspect_ratio` added; the exchange's error is the result's error, otherwise the result is the decoded `result.images` |
| Client.ImageAIUtilsClient.ImageToImage | image_ai_utils/common/client.py:174-197 | endpoint `image_to_image`; the body adds the source as a PNG data URL and the strength; the exchange's error is the result's error, otherwise the result is the decoded `result.images` |
| Client.ImageAIUtilsClient.Inpaint | image_ai_utils/common/client.py:199-227 | endpoint `inpainting`; the body adds source, strength and, only when given, the mask; the exchange's error is the result's error, otherwise the result is the decoded `result.images` |
| Client.GobigBody | image_ai_utils/common/client.py:245-259 | the body is GobigFields of the arguments with the source encoded as a PNG data URL, and that `image` decodes back to the source |
| Client.GobigFields | image_ai_utils/common/client.py:245-259 | exactly the thirteen keys of the `gobig` dict; each argument under its key with its value, `esrgan_model` as the model's value, `output_format` PNG, and `seed` always present, null when not given |
| Client.ImageAIUtilsClient.Gobig | image_ai_utils/common/client.py:229-261 | endpoint `gobig` with the gobig body; the exchange's error is the result's error; otherwise the result is the decoding of `result.image`, or the error of looking that entry up |
| Client.PostedImage | image_ai_utils/common/client.py:286-287 | an image comes back only from a 2xx reply; any other status raises HTTPStatusError carrying that status; a 2xx JSON object with `image` gives exactly that entry's decoding |
| Client.ImageAIUtilsClient.Upscale | image_ai_utils/common/client.py:263-287 | an authenticated POST to `upscale` with exactly the five fields; the result is the posted-image outcome of the reply |
| Client.ImageAIUtilsClient.RestoreFace | image_ai_utils/common/client.py:289-317 | an authenticated POST to `restore_face` whose body is exactly the source as a PNG data URL, the GFPGAN value and the five flags as given; the image field decodes back to the source; the result is the posted-image outcome |
| Client.ImageAIUtilsClient.TestConnection | image_ai_utils/common/client.py:319-326 | GET on `ping`; None after any reply, `(False, 'Exception: <type>')` when httpx raised |
| Client.ClientCache.constructor | image_ai_utils/common/client.py:328 | the cache starts empty |
| Client.ClientCache.Get | image_ai_utils/common/client.py:330-345 | returns the cached client if any; None without caching when there are no settings; AttributeError for the missing USE_TLS; otherwise a new client built from the settings, cached |
| Client.ClientCache.RefreshCredentials | image_ai_utils/common/client.py:347-350 | the cached client takes the settings' credentials and keeps its URLs; with a cached client but no settings it raises; without settings the cache is untouched |
| Json.WithSeed | image_ai_utils/common/client.py:143-144 | `seed` is added exactly when given, with that value, and the other keys are kept |
| Json.Update | image_ai_utils/common/client.py:142 | the keys are the union of both, and every key of the update wins |
| LegacyClient.WithSlash | image_ai_utils/client.py:12-13 | the result ends with `/`, and only a missing slash is added |
| LegacyClient.NormalizedBase | image_ai_utils/client.py:12-16 | the base ends with `/` and has a scheme; `http://` is prefixed exactly when no scheme was there |
| LegacyClient.NormalizedBaseIdempotent | image_ai_utils/client.py:12-16 | normalising a normalised base changes nothing |
| LegacyClient.HttpsKept | image_ai_utils/client.py:15-16 | an `https://` address keeps its scheme |
| LegacyClient.ImageAIUtilsClient.constructor | image_ai_utils/client.py:11-22 | the base URL is the normalised one; the credentials are kept |
| LegacyClient.WithCommon | image_ai_utils/client.py:33-42 | the keys are exactly the extra ones, the five common fields, and `seed` when given; `prompt`, `num_variants`, `num_inference_steps`, `guidance_scale` and `seed` are the given values and `output_format` is PNG; every extra entry that is not a common field keeps its value |
| LegacyClient.CommonFields | image_ai_utils/client.py:33-40 | exactly the five fields every legacy request writes, with the given prompt, variants, steps and guidance, and `output_format` PNG |
| LegacyClient.TextToImageBody | image_ai_utils/client.py:33-42 | the keys are exactly `aspect_ratio`, the five common fields and `seed` when given; `aspect_ratio`, `prompt`, `num_variants`, `num_inference_steps`, `guidance_scale` and `seed` are the given values; `output_format` is PNG |
| LegacyClient.ImageBody | image_ai_utils/client.py:63-106 | the keys are exactly `source_image`, `strength`, `mask` when given, the five common fields and `seed` when given; `source_image` and `mask` are the images as PNG data URLs; `strength`, `prompt`, `num_variants`, `num_inference_steps`, `guidance_scale` and `seed` are the given values; `output_format` is PNG |
| LegacyClient.ImageFields | image_ai_utils/client.py:95-104 | exactly `source_image` and `strength`, plus `mask` exactly when one is given, each with the given value |
| LegacyClient.ReplyEntry | image_ai_utils/client.py:51 | `response.json()[key]` succeeds exactly when the reply is a JSON object with that key, whatever its status |
| LegacyClient.ReplyImages | image_ai_utils/client.py:51 | success implies `images` can be iterated, and each result is the decoding of the entry it yields, in order |
| LegacyClient.ImageAIUtilsClient.TextToImage | image_ai_utils/client.py:24-51 | an authenticated POST to `text_to_image` with the text-to-image body; the images of the reply |
| LegacyClient.ImageAIUtilsClient.ImageToImage | image_ai_utils/client.py:53-82 | a POST to `image_to_image` with the image body and no mask |
| LegacyClient.ImageAIUtilsClient.Inpaint | image_ai_utils/client.py:84-115 | a POST to the `image_to_image` endpoint (not an inpainting one), with the mask in the body |
| LegacyClient.ImageAIUtilsClient.Upscale | image_ai_utils/client.py:117-136 | a POST to `upscale` with the three fields, status unchecked; the result is the decoding of the reply's `image`, or the error of looking it up |
| LegacyClient.ImageAIUtilsClient.TestConnection | image_ai_utils/client.py:138-145 | `(status == 200, text)` for a reply, `(False, 'Exception: <type>')` when httpx raised; True only for status 200 |
| LegacyClient.ClientCache.constructor | image_ai_utils/client.py:147 | the cache starts empty |
| LegacyClient.ClientCache.Get | image_ai_utils/client.py:149-163 | the cached client; AttributeError when Settings has no `settings()`; None without caching when there are no settings; else a new cached client on the normalised URL |
| DiffusionClient.TextToImageBodyKeys | diffusion_tools/client.py:25-34 | the body holds exactly the six fixed fields, plus `seed` exactly when given |
| DiffusionClient.DiffusionClient.constructor | diffusion_tools/client.py:10-14 | the base URL is kept verbatim |
| DiffusionClient.DiffusionClient.TextToImage | diffusion_tools/client.py:16-42 | a POST to `base_url + 'text_to_image'`, with no normalisation and no credentials; `seed` exactly when given |
| DiffusionClient.DiffusionClient.ImageToImage | diffusion_tools/client.py:44-53 | the stub sends nothing and returns None |
| DiffusionClient.ModuleClient | diffusion_tools/client.py:56 | the module client uses `AI_IMAGE_UTILS_URL` when it is set, else `http://localhost:8000/` |
| Codec.SextetRoundTrip | image_ai_utils/common/utils.py:17 | each 6-bit value's character decodes back to that value |
| Codec.StandardAlphabet | image_ai_utils/common/utils.py:17 | the alphabet is that of section 4 of RFC 4648 (`A-Z a-z 0-9 + /`); `-`, `_`, `=` and `,` are outside it |
| Codec.SextetValueInverse | image_ai_utils/common/utils.py:22 | every alphabet character is the encoding of its value |
| Codec.Encode | image_ai_utils/common/utils.py:17 | the encoding has 4 characters per started group of 3 bytes |
| Codec.EncodeAlphabet | image_ai_utils/common/utils.py:17 | every character of an encoding is in the alphabet or is `=` |
| Codec.EncodeHasNoComma | image_ai_utils/common/utils.py:17 | the payload never holds the comma that ends the header |
| Codec.Decode | image_ai_utils/common/utils.py:22 | a decodable text has a length divisible by 4; its n groups of 4 give between 3n - 2 and 3n bytes |
| Codec.Base64RoundTrip | image_ai_utils/common/utils.py:17-22 | `b64decode(b64encode(d)) == d` for every byte string |
| Codec.ImageToDataUrl | image_ai_utils/common/utils.py:13-17 | success exactly when `'.' + format.lower()` is a known extension; the URL is `data:` + MIME + `;base64,` + payload; otherwise KeyError on that extension |
| Codec.DataUrlToImage | image_ai_utils/common/utils.py:20-22 | success only for text with exactly one comma; an unpacking error reports one piece more than there are commas |
| Codec.ImageRoundTrip | image_ai_utils/common/utils.py:13-22 | decoding an encoded image gives back the saved bytes |
| Codec.DecodeNeedsOneComma | image_ai_utils/common/utils.py:21 | text without exactly one comma fails the unpacking, reporting the number of pieces |
| Codec.DecodeOneComma | image_ai_utils/common/utils.py:21-22 | with exactly one comma, decoding succeeds exactly when the part after it is Base64 |
| Codec.UiFilePathRelative | image_ai_utils/common/utils.py:9-10 | a relative file name lands at `<module dir>/ui/<name>` |
| Codec.UiFilePathAbsolute | image_ai_utils/common/utils.py:9-10 | an absolute file name is returned as it is |
| Codec.UiFilePath | image_ai_utils/common/utils.py:9-10 | the path always ends with the requested file name |
| Text.SplitCount | image_ai_utils/common/utils.py:21 | `split` gives one more piece than there are separators, and no piece holds one |
| Text.SplitJoin | image_ai_utils/common/utils.py:21 | joining the pieces of `split` with the separator gives back the text |
| Text.SplitAroundOne | image_ai_utils/common/utils.py:21 | two separator-free halves around one separator split into exactly those halves |
| Text.ReplaceAllShrinks | image_ai_utils/common/client.py:55-56 | deleting a pattern never lengthens the text, and keeps its length exactly when the pattern is absent |
| Text.LowerIdempotent | image_ai_utils/common/utils.py:14 | lower-casing twice is lower-casing once |
| Text.DecimalInjective | image_ai_utils/diffusion_tools.py:81 | distinct indices render as distinct decimal texts |
| Selection.Place | image_ai_utils/common/ui/diffusion_dialog.py:122 | button `i` sits at row `i // 2`, column `i % 2` |
| Selection.Placements | image_ai_utils/common/ui/diffusion_dialog.py:119-122 | one placement per variant, in order |
| Selection.PlacesDistinct | image_ai_utils/common/ui/diffusion_dialog.py:122 | no two buttons share a cell |
| Selection.Cleared | image_ai_utils/common/ui/diffusion_dialog.py:116 | `[False] * n` has length n and nothing selected |
| Selection.AnyIffCountPositive | image_ai_utils/common/ui/diffusion_dialog.py:195-196 | `any(selection)` holds exactly when `sum(selection)` is positive |
| Selection.CountCleared | image_ai_utils/common/ui/diffusion_dialog.py:116-118 | a cleared selection counts zero |
| Selection.SelectedIndices | image_ai_utils/common/ui/diffusion_dialog.py:215-217 | the selected positions, each selected, strictly increasing |
| Selection.SelectedIndicesComplete | image_ai_utils/common/ui/diffusion_dialog.py:215-217 | every selected position is listed |
| Selection.Selected | image_ai_utils/common/ui/diffusion_dialog.py:215-217 | the zip-and-filter keeps at most as many items as there are |
| Selection.SelectedInOrder | image_ai_utils/common/ui/diffusion_dialog.py:215-217 | the k-th kept variant is the variant at the k-th selected position |
| Selection.SelectedCount | image_ai_utils/common/ui/diffusion_dialog.py:215-217 | as many variants are kept as are selected |
| Selection.FirstSelected | image_ai_utils/common/ui/diffusion_dialog.py:125 | `index(True)` is the first selected position; None (ValueError) exactly when nothing is selected |
| Dialog.BaseRequest | image_ai_utils/common/ui/diffusion_dialog.py:143-151 | the five widget fields with the widgets' values (prompt, steps, guidance, variants, scaling mode), plus `seed` with the seed widget's value exactly when the random-seed box is unchecked, and nothing else |
| Dialog.GenerateCall | image_ai_utils/common/ui/diffusion_dialog.py:153-173 | the client method follows the mode (`text_to_image`, `image_to_image`, `inpaint`); every BaseRequest entry is passed with its value; `aspect_ratio` is width/height and only for text-to-image; strength (its widget value) and source for the other modes; `mask` only for inpaint; no other keyword is passed; a call is made exactly when a client exists, the mode is not make-tilable and a text-to-image height is nonzero; make-tilable raises AttributeError |
| Dialog.DiffusionDialog.constructor | image_ai_utils/common/ui/diffusion_dialog.py:77-94 | no results, no selection, 512x512 target, no mode, source or mask |
| Dialog.DiffusionDialog.SetSourceImage | image_ai_utils/common/ui/diffusion_dialog.py:96-97 | the source image is set |
| Dialog.DiffusionDialog.SetMask | image_ai_utils/common/ui/diffusion_dialog.py:99-100 | the mask is set |
| Dialog.DiffusionDialog.SetTargetSize | image_ai_utils/common/ui/diffusion_dialog.py:209-211 | the target size is set |
| Dialog.DiffusionDialog.UpdateButtons | image_ai_utils/common/ui/diffusion_dialog.py:102-122 | the selection is all False with one flag per result, both buttons are disabled, and the grid holds one button per result at its cell |
| Dialog.DiffusionDialog.Toggle | image_ai_utils/common/ui/diffusion_dialog.py:192-198 | only flag i changes; upscale is enabled exactly when one variant is selected, apply exactly when any is |
| Dialog.DiffusionDialog.SetMode | image_ai_utils/common/ui/diffusion_dialog.py:200-207 | strength widgets are visible exactly when the mode is not text-to-image; border widgets exactly for make-tilable |
| Dialog.DiffusionDialog.UpscaleAsWritten | image_ai_utils/common/ui/diffusion_dialog.py:124-131 | with a selection the `prompt` keyword raises TypeError; without one `index` raises ValueError |
| Dialog.DiffusionDialog.Upscale | image_ai_utils/common/ui/diffusion_dialog.py:124-136 | the first selected variant is offered; an accepted upscale replaces only that variant and resets the selection; otherwise nothing changes |
| Dialog.DiffusionDialog.Generate | image_ai_utils/common/ui/diffusion_dialog.py:141-190 | no mode means no request; the call is the mode's GenerateCall; on success the results are the reply with nothing selected; on any failure the results and selection are unchanged |
| Dialog.DiffusionDialog.ResultImages | image_ai_utils/common/ui/diffusion_dialog.py:213-217 | the selected variants in their original order, as many as are selected |
| LegacyDialog.LegacyRequest | diffusion_tools/ui/diffusion_dialog.py:84-91 | exactly the four widget fields with the widgets' values (prompt, steps, guidance, variants); `seed` is never present |
| LegacyDialog.SeedNeverSent | diffusion_tools/ui/diffusion_dialog.py:90-91 | with the random-seed box unchecked, the common dialog sends the typed seed and this one sends none; on every key this one sends, the two requests agree |
| LegacyDialog.DiffusionDialog.constructor | diffusion_tools/ui/diffusion_dialog.py:55-70 | no results, no selection, 512x512 target, no mode or source |
| LegacyDialog.DiffusionDialog.SetSourceImage | diffusion_tools/ui/diffusion_dialog.py:72-73 | the source image is set |
| LegacyDialog.DiffusionDialog.SetMode | diffusion_tools/ui/diffusion_dialog.py:134-137 | the strength widgets are visible exactly when the mode is not text-to-image |
| LegacyDialog.DiffusionDialog.SetTargetSize | diffusion_tools/ui/diffusion_dialog.py:139-141 | the target size is set |
| LegacyDialog.DiffusionDialog.Generate | diffusion_tools/ui/diffusion_dialog.py:82-123 | no request ever holds `seed`; text-to-image sends the four fields plus the aspect ratio, and a zero height raises ZeroDivisionError; image-to-image raises TypeError for `strength`; other modes send nothing; on success the results are the reply with nothing selected and both buttons disabled; otherwise results and selection are unchanged |
| LegacyDialog.DiffusionDialog.Toggle | diffusion_tools/ui/diffusion_dialog.py:125-132 | only flag i changes; both buttons are enabled exactly when any variant is selected |
| LegacyDialog.DiffusionDialog.ResultImages | diffusion_tools/ui/diffusion_dialog.py:143-147 | the selected variants in their original order |
| Dock.LayerTypeValuesIdentify | image_ai_utils/diffusion_tools.py:17-29 | every layer type is found again from its string value, so no two share a value |
| Dock.DocumentSelection | image_ai_utils/diffusion_tools.py:88-93 | the selection's rectangle, or `(0, 0, width, height)` without a selection |
| Dock.ImageFromLayer | image_ai_utils/diffusion_tools.py:124-133 | RGBA for a paint layer, L for a transparency mask, None for any other node, sized to the rectangle |
| Dock.CurrentInfo | image_ai_utils/diffusion_tools.py:95-108 | NotEnoughInfo exactly without a document, or with a checked active layer that is not a paint layer; otherwise the working rectangle, the active layer and its RGBA image |
| Dock.IndexOf | image_ai_utils/diffusion_tools.py:74 | `list.index`: the first position holding the node; None (ValueError) exactly when it is absent |
| Dock.Anchor | image_ai_utils/diffusion_tools.py:72-78 | the active node unless `below`; with `below`, ValueError exactly when the active node is not among its siblings |
| Dock.AnchorBelow | image_ai_utils/diffusion_tools.py:72-78 | with `below`, the sibling just under the active node, or None when it is the lowest |
| Dock.DiffusionLayersShape | image_ai_utils/diffusion_tools.py:80-84 | one paint layer per result, in order, under the same parent and anchor, filled from that result, with pairwise different names |
| Dock.Invert | image_ai_utils/diffusion_tools.py:165 | every mask pixel v becomes 255 - v |
| Dock.InvertInvolutive | image_ai_utils/diffusion_tools.py:165 | inverting twice gives the mask back |
| Dock.FirstTransparencyMask | image_ai_utils/diffusion_tools.py:157-162 | the first transparency-mask child; None exactly when there is none |
| Dock.ApplyResult | image_ai_utils/diffusion_tools.py:190-198 | three calls without a selection (set width, set height, add the layer), one with a selection; the last call adds the named result layer above the active one, at the rectangle's origin and the result's size |
| Dock.DiffusionToolsDock.constructor | image_ai_utils/diffusion_tools.py:37-64 | the settings-dependent buttons are enabled exactly when settings were loaded; the dialog starts empty |
| Dock.DiffusionToolsDock.CallSettings | image_ai_utils/diffusion_tools.py:246-252 | accepting the settings dialog enables the dependent buttons; otherwise nothing changes |
| Dock.DiffusionToolsDock.InsertLayersFromDiffusion | image_ai_utils/diffusion_tools.py:66-86 | the calls are one `diffusion i` layer per kept result above the anchor, then a projection refresh; no document or a missing anchor raises before any call |
| Dock.DiffusionToolsDock.TextToImage | image_ai_utils/diffusion_tools.py:110-122 | without a document nothing happens; otherwise the dialog is sized to the working rectangle, set to text-to-image, with the strength and border widgets hidden |
| Dock.DiffusionToolsDock.ImageToImage | image_ai_utils/diffusion_tools.py:135-147 | without usable info nothing happens; otherwise the dialog gets the size, the layer's pixels and image-to-image mode, with the strength widget shown and the border widget hidden |
| Dock.DiffusionToolsDock.Inpaint | image_ai_utils/diffusion_tools.py:149-171 | with usable info the dialog gets the size and the layer's pixels; it opens exactly when the active layer has a transparency-mask child, and then holds the inverted mask, is in inpaint mode with the strength widget shown and the border widget hidden, and results go below; without a mask the widgets' visibility is unchanged |
| Dock.DiffusionToolsDock.MakeTilable | image_ai_utils/diffusion_tools.py:221-244 | without usable info nothing happens; otherwise the dialog gets the working size and the layer's pixels, and is in make-tilable mode with the strength and border widgets shown |
| Dock.DiffusionToolsDock.UpscaleAsWritten | image_ai_utils/diffusion_tools.py:173-184 | once a paint layer is active, the `lock_aspect_ratio` keyword raises TypeError |
| Dock.DiffusionToolsDock.Upscale | image_ai_utils/diffusion_tools.py:173-198 | the upscale dialog is offered the layer at twice the working width and height; an accepted result is applied above the active layer |
| Dock.DiffusionToolsDock.FaceRestoration | image_ai_utils/diffusion_tools.py:200-219 | the layer goes to the restoration dialog; an accepted result is applied above the active layer |

## Left out

- Network transport: `httpx` calls and `WebSocketApp.run_forever` are inputs, as described above. The `Accept-Encoding` header and timeouts are not modelled.
- WebSocket library behaviour: an exception raised inside a callback is taken to end the exchange with that exception. The library's own threading and error plumbing are not modelled.
- JSON text: frames carry the value `json.loads` produced, or its failure. Serialisation of request bodies is not modelled.
- PIL: saving, opening, `convert`, `resize`, `frombytes` and `tobytes` are not modelled. An image is the bytes PIL saved, and decoding stops at the bytes handed to `Image.open`.
- Codec.Decode: rejects any character outside the alphabet, while `b64decode` discards such characters. `b64decode` also stops after the first padded group, so `QQ==QQ==` gives one byte there, while `Decode` rejects it. The two agree on every payload `Encode` produces.
- Client.PostedImage: every status outside 200-299 is taken to raise. Some httpx versions let 1xx and 3xx replies through `raise_for_status`.
- Client.Entries, Client.ResultImages and LegacyClient.ReplyImages (and through it DiffusionClient.DiffusionClient.TextToImage): a non-empty dict in `images` is an error. Python would iterate its keys in insertion order, which the JSON model does not keep.
- Floating point: `aspect_ratio` is an exact quotient of reals. The progress bar's `int(progress*100)` and `heightForWidth` are not modelled.
- Qt widgets: painting, the progress-bar and exception dialogs, and `ProgressThread` (image_ai_utils/common/progress_thread.py) are not modelled. The worker's concurrency is the point of that file, and the model takes its result or error message as an input.
- The upscale, face-restoration, settings and exception dialogs: only their outcome is modelled, as an input.
- Settings loading and saving (image_ai_utils/common/settings.py, image_ai_utils/settings.py) is not modelled. A settings value is an input, and `Settings.settings()` is taken to return the same value each time it is called.
- Plugin bootstrap (both `__init__.py` files) and the legacy docker `diffusion_tools/diffusion_tools.py` are not part of this model.
- The first dialog's `upscale`, which only opens the upscale dialog and ignores its outcome, is not modelled. Neither is `apply` in either dialog, which only accepts the dialog.
- `make_tilable` on the client: the client defines no such method, so the dialog's call raises AttributeError (`Dialog.GenerateCall`). `result_mask` is therefore never set, and the dock's commented-out mask insertion is not modelled.
- Dock.DiffusionToolsDock.InsertLayersFromDiffusion: records each result's bytes as given. The RGBA conversion and resizing to the working rectangle are PIL's.
- Dock.Invert: inverts an L image's bytes only, which is what a transparency mask yields.
- Krita: `addChildNode` is recorded as a call. The layer tree it produces is not modelled.
- image_ai_utils/ui/utils.py and diffusion_tools/ui/utils.py are not part of this model. Their conversions are taken to be those of image_ai_utils/common/utils.py.
- Dialog.GenerateCall and Dialog.DiffusionDialog.Generate: `clientReady` stands for `ImageAIUtilsClient.client()` returning a client. With the common Settings class as written, `Client.ClientCache.Get` never builds one: it returns None without settings and raises AttributeError for `USE_TLS` otherwise. The success paths these two contracts describe are therefore those of the code once that field exists.
- Text.Lower: lower-cases ASCII letters only, while `str.lower` follows Unicode. The only format the code passes is `PNG`.
- Codec.ImageToDataUrl: looks formats up in eight of the image entries of `mimetypes.types_map` (`Codec.MimeTypes`). Python's table has more image entries (`.jpe`, `.svg`, `.ppm` and others), so a format such as `SVG` fails here and succeeds there; `.png`, the only format the code passes, is in both.
- Codec.PathJoin: joins POSIX paths as `posixpath.join` does. On Windows `os.path.join` is `ntpath.join`, with drive letters and backslashes, which is not modelled.
- Default argument values are not modelled: every caller passes every argument.

## Findings

| source | as written | input that shows it | evidently intended | confidence | as-written member | corrected member |
|---|---|---|---|---|---|---|
| image_ai_utils/common/ui/diffusion_dialog.py:126-131 | `upscale` passes `prompt=` to `set_upscaling_params`, which (image_ai_utils/common/ui/upscale_dialog.py:52-54) declares only `source_image`, `target_width` and `target_height`, so the call raises TypeError and no variant is ever upscaled | any press of "upscale selected" with one variant selected | the call without `prompt`: offer the selected variant and replace it with an accepted result | high; not executed | Dialog.DiffusionDialog.UpscaleAsWritten | Dialog.DiffusionDialog.Upscale |
| image_ai_utils/diffusion_tools.py:179-184 | `upscale` passes `lock_aspect_ratio=True` to the same `set_upscaling_params`, so the call raises TypeError once a paint layer is active | the docker's Upscale button with an active paint layer | the call without `lock_aspect_ratio`: offer the layer at twice its size and apply an accepted result | high; not executed | Dock.DiffusionToolsDock.UpscaleAsWritten | Dock.DiffusionToolsDock.Upscale |
