# Storm AI Studio request orchestration, modelled in Dafny

This project models the service layer of Storm AI Studio (`services/geminiService.ts`).
The service keeps one API key in the browser's local storage. It offers three operations
against a generative endpoint:

- texture swap: apply a reference texture to a target photo;
- image generation: make an image from a prompt, at a chosen aspect ratio and size;
- image analysis: describe an image, optionally with an extended thinking budget.

Every operation first reads the key and fails with `API_KEY_MISSING` when it is absent or
empty. Otherwise it builds a request envelope and makes one `generateContent` call. It then
reads the result out of the response. The image operations return the first part of the first
candidate that carries non-empty inline data, as a PNG data URL, and throw when there is none.
The analysis operation returns the response text, or a fixed fallback when the text is absent or empty.

Modules:

- `Wrappers`: `Option` and `Result`. A thrown `Error` is `Err(message)`.
- `Envelope`: request parts (`InlineData`, `Text`), the tagged configuration
  (`NoConfig`, `ImageConfig`, `ThinkingConfig`), requests, responses and the outcome of a remote call.
- `CredentialStore`: the storage slot under `"storm_ai_api_key"`. It has pure map functions
  with their lemmas, and the class `ApiKeyStore`, whose methods update the map in place.
- `RequestBuilder`: the three builders as pure functions. Each has a recogniser that reads
  the arguments back out of a request. Each builder's contract says the recogniser reads its
  inputs back, and a lemma per builder says the recogniser accepts nothing else. Together
  they fix the model id, the order of the parts and the shape of the configuration.
- `ResponseExtractor`: the first-match scan as a loop (`ExtractImage`), proved against the
  recursive `FirstImage`, and the text fallback.
- `GeminiService`: the class `Service`. It holds the store and a ghost log `sent` of every
  remote call. Its methods `GetClient`, `SwapTexture`, `GenerateImage` and `AnalyzeImage`
  take the remote endpoint as a parameter. `KeyLifecycleScenario` is a client of these contracts.

## Model

| member | source | states |
|---|---|---|
| CredentialStore.ApiKeyStore.GetStoredApiKey | services/geminiService.ts:6-8 | returns the value under the fixed key when that key is present, and none otherwise |
| CredentialStore.ApiKeyStore.SetStoredApiKey | services/geminiService.ts:10-12 | the slot then holds exactly the given key; every other storage key keeps its presence and value |
| CredentialStore.ApiKeyStore.RemoveStoredApiKey | services/geminiService.ts:14-16 | the slot is then empty; every other storage key keeps its presence and value |
| CredentialStore.ApiKeyStore.HasApiKey | services/geminiService.ts:19-21 | true exactly when the key is present and non-empty |
| CredentialStore.Lookup | services/geminiService.ts:7 | `getItem` on the fixed key: present exactly when the key is in the storage, with the stored value |
| CredentialStore.WithKey | services/geminiService.ts:11 | `setItem` on the fixed key: the key set gains the slot, the slot holds the new value, every other key keeps its value |
| CredentialStore.WithoutKey | services/geminiService.ts:15 | `removeItem` on the fixed key: the key set loses the slot, every remaining key keeps its value |
| CredentialStore.IsUsable | services/geminiService.ts:20-26 | the truthiness of a string-or-null value, as used by `hasApiKey` and `getClient`: neither null nor the empty string |
| CredentialStore.ApiKeyStore.StoredKey | services/geminiService.ts:6-8 | the slot's value as the store holds it now: present exactly when the fixed key is in the map, with its value |
| CredentialStore.SetThenGet | services/geminiService.ts:6-12 | reading after storing `k` gives `k` |
| CredentialStore.RemoveThenGet | services/geminiService.ts:6-16 | reading after removal gives none |
| CredentialStore.SetOverwrites | services/geminiService.ts:10-12 | a second store replaces the first; only the last key is read back |
| CredentialStore.RemoveUndoesSet | services/geminiService.ts:10-16 | storing then removing leaves the storage as removal alone leaves it |
| CredentialStore.OtherKeysUntouched | services/geminiService.ts:4-16 | store and removal do not add, drop or change any key other than `"storm_ai_api_key"` |
| CredentialStore.UsableAfterSet | services/geminiService.ts:19-21 | after storing `k` a usable key is present exactly when `k` is non-empty, so storing `""` leaves none |
| GeminiService.Service.GetClient | services/geminiService.ts:23-31 | succeeds exactly when the stored key is present and non-empty, binding the client to that key; otherwise fails with `API_KEY_MISSING` |
| GeminiService.Service.SwapTexture | services/geminiService.ts:37-86 | without a usable key: `API_KEY_MISSING` and no remote call; with one: exactly one call, logged with the stored key and the swap request, and the result is the image read from its outcome or the swap's own no-image error |
| GeminiService.Service.GenerateImage | services/geminiService.ts:93-119 | the same guard; then exactly one call with the generation request, and the image read from its outcome or the generation's own no-image error |
| GeminiService.Service.AnalyzeImage | services/geminiService.ts:126-156 | the same guard; then exactly one call with the analysis request, and the response text or the fallback; a rejected call fails with its message |
| RequestBuilder.SwapPrompt | services/geminiService.ts:45-55 | the instruction is the fixed template with the user's request embedded verbatim at a fixed offset |
| RequestBuilder.SwapPromptLabels | services/geminiService.ts:45-55 | "Image 1" comes before "Image 2", which comes before "User Request: ", which comes before the verbatim request |
| RequestBuilder.UserRequestRoundTrip | services/geminiService.ts:45-55 | the user's request is recovered intact from the instruction text |
| RequestBuilder.UserRequestRecognised | services/geminiService.ts:45-55 | any text recognised as an instruction is the template applied to the recovered request |
| RequestBuilder.SwapPromptInjective | services/geminiService.ts:45-55 | different requests give different instructions |
| RequestBuilder.BuildSwapTexture | services/geminiService.ts:57-76 | the recogniser reads back target, reference and request: the swap request is for `gemini-2.5-flash-image`, has no configuration and exactly three parts: the target JPEG, then the reference JPEG, then the instruction |
| RequestBuilder.SwapRecognised | services/geminiService.ts:57-76 | every request of that shape is the one the builder makes from the inputs read out of it |
| RequestBuilder.SwapOrderSignificant | services/geminiService.ts:60-74 | exchanging two different images changes the request; the first part is always the target |
| RequestBuilder.BuildGenerateImage | services/geminiService.ts:99-110 | the generation request is for `gemini-3-pro-image-preview`, with one text part holding the prompt unmodified and the aspect ratio and size passed through as given |
| RequestBuilder.GenerateRecognised | services/geminiService.ts:99-110 | every request of that shape is the one the builder makes from the inputs read out of it |
| RequestBuilder.BuildAnalyzeImage | services/geminiService.ts:133-153 | the analysis request is for `gemini-3-pro-preview` with the image JPEG then the prompt text, and the thinking flag can be read back from the configuration |
| RequestBuilder.AnalyzeRecognised | services/geminiService.ts:133-153 | every request of that shape is the one the builder makes from the inputs read out of it |
| RequestBuilder.AnalyzeConfig | services/geminiService.ts:133-137 | the configuration has a thinking entry exactly when thinking is asked for, with budget 32768; otherwise it has no entry at all |
| ResponseExtractor.FirstCandidateParts | services/geminiService.ts:79 | the optional chain through the first candidate, defaulting to an empty list: any part it yields comes from the part list of the first candidate's content; a missing list, candidate, content or part list yields none |
| ResponseExtractor.LaterCandidatesIgnored | services/geminiService.ts:79 | candidates after the first, and the response text, never change the parts that are scanned |
| ResponseExtractor.Qualifies | services/geminiService.ts:80 | a qualifying part has inline data with data present; a part without inline data, or whose data is absent or empty, never qualifies |
| ResponseExtractor.FirstImage | services/geminiService.ts:79-83 | when the recursive scan finds an image, it is the PNG data URL of some qualifying part |
| ResponseExtractor.ImageResult | services/geminiService.ts:79-85 | a rejection's message is passed on; a success comes from a response and is a PNG data URL with non-empty data; a response without an image fails with the operation's own message |
| ResponseExtractor.PngDataUrl | services/geminiService.ts:81 | the result is `data:image/png;base64,` followed by the data unchanged |
| ResponseExtractor.FirstImageSpec | services/geminiService.ts:79-83 | the scan finds nothing exactly when no part has non-empty inline data; otherwise it returns the data URL of the first such part |
| ResponseExtractor.FirstImageIgnoresLater | services/geminiService.ts:79-83 | parts after the first image part never change the result |
| ResponseExtractor.ExtractImage | services/geminiService.ts:79-83 | the loop over the first candidate's parts, with its early return, returns the data URL of the first part with non-empty inline data, and none exactly when no part has any |
| ResponseExtractor.ImageResultSpec | services/geminiService.ts:79-85 | an image operation's outcome: a rejection's message is passed on; the no-image error is raised exactly when no part qualifies; otherwise the first qualifying part's data URL is returned |
| ResponseExtractor.AnalysisText | services/geminiService.ts:155 | the text when it is present and non-empty, otherwise `Nenhuma análise retornada.`; never empty |
| ResponseExtractor.AnalyzeResult | services/geminiService.ts:139-155 | the analysis fails only when the call is rejected, with its message; otherwise it returns a non-empty text |

## Left out

- The `GoogleGenAI` client library, the network and `async`/`await`. The remote call is the
  parameter `remote` of each operation. A rejected promise is `Rejected(message)`, and its
  message is passed on unchanged. Creating a client is modelled as `Client(apiKey)`.
- The `response.text` getter belongs to the client library. It is modelled as an optional
  field of the response rather than computed from the parts.
- `analyzeImage` without thinking sends an empty configuration object, and `swapTexture` sends
  none. Neither carries an entry, so both are `NoConfig`.
- The members of `AspectRatio` and `ImageSize` are defined in `types.ts`. `types.ts` is not
  part of this model, so both are opaque strings, passed through unchanged.
- Base64 encoding and image bytes. Payloads are opaque strings.
- `localStorage` as a browser API. It is reduced to a map from keys to strings. Persistence
  across sessions and sharing between tabs are not modelled.
- The React components. Their input guards happen in the components, not in the service,
  and so the operations here accept any strings:
  - `components/TextureSwapper.tsx` requires both images. Its prompt may be blank.
  - `components/ImageAnalyzer.tsx` requires the image. Its prompt may be blank.
  - `components/ImageGenerator.tsx` requires a prompt that is non-blank after trimming.
- Also in the components: data-URL prefixes are stripped before a call, and a key is trimmed
  before it is saved.
- The error-message mapping in `components/ImageGenerator.tsx`. It looks for the substring
  "API key", which the service's `API_KEY_MISSING` does not contain.
