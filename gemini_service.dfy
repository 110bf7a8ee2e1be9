/** The three operations of the service. Each reads the credential first and
    fails before any remote call when it is missing; otherwise it builds its
    request, makes exactly one remote call and reads the result out of the
    response. The remote `generateContent` call is a parameter, and a ghost
    log records every call the service makes. */
module GeminiService {
  import opened Wrappers
  import opened Envelope
  import opened CredentialStore
  import opened RequestBuilder
  import opened ResponseExtractor

  /** The error thrown when no usable credential is stored. */
  const ApiKeyMissing: string := "API_KEY_MISSING"

  /** The error of a texture swap whose response holds no image. */
  const NoSwapImage: string := "O modelo não gerou uma imagem de retorno."

  /** The error of a generation whose response holds no image. */
  const NoGeneratedImage: string := "Nenhuma imagem gerada. O modelo pode ter recusado o prompt."

  /** The remote endpoint: what awaiting `generateContent` on a client yields
      for a request. */
  type Remote = (Client, Request) -> RemoteOutcome

  class Service {
    /** The storage the credential is read from. */
    const store: ApiKeyStore
    /** Every remote call made so far, oldest first. */
    ghost var sent: seq<Call>

    constructor (store: ApiKeyStore)
      ensures this.store == store && sent == []
    {
      this.store := store;
      sent := [];
    }

    /** `getClient`: a client bound to the stored key, or the missing-key
        error when the key is absent or empty. */
    method GetClient() returns (r: Result<Client>)
      ensures r.Ok? <==> IsUsable(store.StoredKey())
      ensures r.Ok? ==> r.value == Client(store.StoredKey().value)
      ensures r.Err? ==> r.message == ApiKeyMissing
    {
      var k := store.GetStoredApiKey();
      if k.None? || k.value == "" {
        return Err(ApiKeyMissing);
      }
      return Ok(Client(k.value));
    }

    /** `swapTexture`: applies the reference texture to the target image. */
    method SwapTexture(remote: Remote, target: string, reference: string, prompt: string)
      returns (r: Result<string>)
      modifies this`sent
      ensures !IsUsable(store.StoredKey()) ==> r == Err(ApiKeyMissing) && sent == old(sent)
      ensures IsUsable(store.StoredKey()) ==>
        var call := Call(Client(store.StoredKey().value), BuildSwapTexture(target, reference, prompt));
        sent == old(sent) + [call] && r == ImageResult(remote(call.client, call.request), NoSwapImage)
    {
      var client := GetClient();
      if client.Err? {
        return Err(client.message);
      }
      var request := BuildSwapTexture(target, reference, prompt);
      var outcome := remote(client.value, request);
      sent := sent + [Call(client.value, request)];
      if outcome.Rejected? {
        return Err(outcome.message);
      }
      var image := ExtractImage(outcome.response);
      if image.Some? {
        return Ok(image.value);
      }
      return Err(NoSwapImage);
    }

    /** `generateImage`: a new image from a prompt at the given settings. */
    method GenerateImage(remote: Remote, prompt: string, aspectRatio: AspectRatio, size: ImageSize)
      returns (r: Result<string>)
      modifies this`sent
      ensures !IsUsable(store.StoredKey()) ==> r == Err(ApiKeyMissing) && sent == old(sent)
      ensures IsUsable(store.StoredKey()) ==>
        var call := Call(Client(store.StoredKey().value), BuildGenerateImage(prompt, aspectRatio, size));
        sent == old(sent) + [call] && r == ImageResult(remote(call.client, call.request), NoGeneratedImage)
    {
      var client := GetClient();
      if client.Err? {
        return Err(client.message);
      }
      var request := BuildGenerateImage(prompt, aspectRatio, size);
      var outcome := remote(client.value, request);
      sent := sent + [Call(client.value, request)];
      if outcome.Rejected? {
        return Err(outcome.message);
      }
      var image := ExtractImage(outcome.response);
      if image.Some? {
        return Ok(image.value);
      }
      return Err(NoGeneratedImage);
    }

    /** `analyzeImage`: a text report on an image, optionally with extended thinking. */
    method AnalyzeImage(remote: Remote, image: string, prompt: string, useThinking: bool)
      returns (r: Result<string>)
      modifies this`sent
      ensures !IsUsable(store.StoredKey()) ==> r == Err(ApiKeyMissing) && sent == old(sent)
      ensures IsUsable(store.StoredKey()) ==>
        var call := Call(Client(store.StoredKey().value), BuildAnalyzeImage(image, prompt, useThinking));
        sent == old(sent) + [call] && r == AnalyzeResult(remote(call.client, call.request))
    {
      var client := GetClient();
      if client.Err? {
        return Err(client.message);
      }
      var request := BuildAnalyzeImage(image, prompt, useThinking);
      var outcome := remote(client.value, request);
      sent := sent + [Call(client.value, request)];
      if outcome.Rejected? {
        return Err(outcome.message);
      }
      return Ok(AnalysisText(outcome.response.text));
    }
  }

  /** A key stored, used for a generation, then removed: the generation
      sends one text part and the settings and returns the PNG data URL of
      the image part; after removal every operation fails without a call. */
  method KeyLifecycleScenario(aspectRatio: AspectRatio, size: ImageSize)
  {
    var store := new ApiKeyStore(map[]);
    var service := new Service(store);
    store.SetStoredApiKey("X");
    var image := ResponsePart(Some(Blob(Some("image/png"), Some("AAAA"))), None);
    var reply := Response(Some([Candidate(Some(Content(Some([image]))))]), None);
    var remote: Remote := (c, req) => Responded(reply);
    var r := service.GenerateImage(remote, "a red cube", aspectRatio, size);
    assert service.sent == [Call(Client("X"), Request(GenerateModel, [Text("a red cube")], ImageConfig(aspectRatio, size)))];
    assert FirstCandidateParts(reply) == [image];
    assert r == Ok(PngDataUrlPrefix + "AAAA");

    store.RemoveStoredApiKey();
    r := service.SwapTexture(remote, "T", "R", "wood");
    assert r == Err(ApiKeyMissing);
    r := service.GenerateImage(remote, "a red cube", aspectRatio, size);
    assert r == Err(ApiKeyMissing);
    r := service.AnalyzeImage(remote, "I", "describe", true);
    assert r == Err(ApiKeyMissing);
    assert |service.sent| == 1;

    store.SetStoredApiKey("");
    r := service.AnalyzeImage(remote, "I", "describe", false);
    assert r == Err(ApiKeyMissing) && |service.sent| == 1;
  }
}
