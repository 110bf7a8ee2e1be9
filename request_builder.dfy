/** The three request builders. Each turns an operation's arguments into the
    request envelope of one `generateContent` call. Beside each builder is its
    recogniser, which reads the arguments back out of an envelope; the
    round-trip lemmas between the two pin down the model id, the order of the
    parts and the shape of the configuration. */
module RequestBuilder {
  import opened Wrappers
  import opened Envelope

  const SwapModel: string := "gemini-2.5-flash-image"
  const GenerateModel: string := "gemini-3-pro-image-preview"
  const AnalyzeModel: string := "gemini-3-pro-preview"

  /** Every image the service sends is tagged as JPEG. */
  const Jpeg: string := "image/jpeg"

  /** The thinking budget requested when extended reasoning is on. */
  const MaxThinkingBudget: nat := 32768

  /** The labels the template gives the two images, and the label before
      the user's request. */
  const Image1Label: string := "Image 1"
  const Image2Label: string := "Image 2"
  const RequestLabel: string := "User Request: "

  /** The fixed instruction text before the user's request: it labels the
      first image as the target and the second as the reference texture. */
  const SwapPromptHead: string :=
    "\n    You are an expert image editor.\n    " + Image1Label + " is the TARGET environment/object.\n    "
    + Image2Label + " is the REFERENCE texture/material.\n    \n    " + RequestLabel

  /** The fixed instruction text after the user's request. */
  const SwapPromptTail: string :=
    "\n    \n    Instruction: Edit Image 1 by applying the material/texture characteristics from Image 2 to the specified object in Image 1. \n    Maintain the lighting and perspective of Image 1 as much as possible, but replace the surface material.\n    Return ONLY the edited image.\n  "

  /** `sub` appears in `s` starting at index `i`. */
  predicate OccursAt(s: string, sub: string, i: int)
  {
    0 <= i && i + |sub| <= |s| && s[i..i + |sub|] == sub
  }

  /** `sub` sits in the middle of `a + sub + b`, right after `a`. */
  lemma OccursInMiddle(a: string, sub: string, b: string)
    ensures OccursAt(a + sub + b, sub, |a|)
  {
    assert (a + sub + b)[|a|..|a| + |sub|] == sub;
  }

  /** A string between a known prefix and suffix is recovered by cutting
      both off, and cutting them off from any string that has them leaves
      the middle that restores it. */
  lemma {:induction false} CutAround(h: string, t: string, f: string, p: string)
    ensures (h + p + t)[..|h|] == h && (h + p + t)[|h| + |p|..] == t
    ensures (h + p + t)[|h|..|h| + |p|] == p
    ensures |h| + |t| <= |f| && f[..|h|] == h && f[|f| - |t|..] == t ==>
      h + f[|h|..|f| - |t|] + t == f
  {
    var s := h + p + t;
    assert s[..|h|] == h;
    assert s[|h| + |p|..] == t;
    assert s[|h|..|h| + |p|] == p;
    if |h| + |t| <= |f| && f[..|h|] == h && f[|f| - |t|..] == t {
      assert f == f[..|h|] + f[|h|..|f| - |t|] + f[|f| - |t|..];
    }
  }

  /** The texture-swap instruction: the user's request embedded verbatim in
      the fixed template. */
  function SwapPrompt(prompt: string): (r: string)
    ensures |r| == |SwapPromptHead| + |prompt| + |SwapPromptTail|
    ensures OccursAt(r, prompt, |SwapPromptHead|)
  {
    OccursInMiddle(SwapPromptHead, prompt, SwapPromptTail);
    SwapPromptHead + prompt + SwapPromptTail
  }

  /** The user's request recovered from a texture-swap instruction, or none
      when the text is not an instance of the template. */
  function UserRequestOf(finalPrompt: string): Option<string>
  {
    var h, t := |SwapPromptHead|, |SwapPromptTail|;
    if h + t <= |finalPrompt|
       && finalPrompt[..h] == SwapPromptHead
       && finalPrompt[|finalPrompt| - t..] == SwapPromptTail
    then Some(finalPrompt[h..|finalPrompt| - t])
    else None
  }

  /** A substring found in `s` is found at the same place in any extension of `s`. */
  lemma OccursInPrefix(s: string, sub: string, i: int, rest: string)
    requires OccursAt(s, sub, i)
    ensures OccursAt(s + rest, sub, i)
  {
    assert (s + rest)[i..i + |sub|] == s[i..i + |sub|];
  }

  /** Where the three labels sit in the fixed text before the request. */
  lemma HeadLabels()
    ensures OccursAt(SwapPromptHead, Image1Label, 41)
    ensures OccursAt(SwapPromptHead, Image2Label, 87)
    ensures OccursAt(SwapPromptHead, RequestLabel, 139)
    ensures |SwapPromptHead| == 153
  {
    var intro := "\n    You are an expert image editor.\n    ";
    var target := " is the TARGET environment/object.\n    ";
    var reference := " is the REFERENCE texture/material.\n    \n    ";
    var a := intro + Image1Label + target;
    var b := a + Image2Label + reference;
    OccursInMiddle(intro, Image1Label, target);
    OccursInPrefix(a, Image1Label, 41, Image2Label + reference + RequestLabel);
    assert a + (Image2Label + reference + RequestLabel) == SwapPromptHead;
    OccursInMiddle(a, Image2Label, reference);
    OccursInPrefix(b, Image2Label, 87, RequestLabel);
    OccursInMiddle(b, RequestLabel, []);
    assert b + RequestLabel + [] == SwapPromptHead;
  }

  /** The template labels "Image 1" and then "Image 2" before it quotes the
      user's request, and it quotes the request whole. */
  lemma SwapPromptLabels(prompt: string)
    ensures OccursAt(SwapPrompt(prompt), Image1Label, 41)
    ensures OccursAt(SwapPrompt(prompt), Image2Label, 87)
    ensures OccursAt(SwapPrompt(prompt), RequestLabel, 139)
    ensures 41 < 87 < 139 < |SwapPromptHead| == 153
    ensures OccursAt(SwapPrompt(prompt), prompt, |SwapPromptHead|)
  {
    HeadLabels();
    var rest := prompt + SwapPromptTail;
    assert SwapPromptHead + rest == SwapPrompt(prompt);
    OccursInPrefix(SwapPromptHead, Image1Label, 41, rest);
    OccursInPrefix(SwapPromptHead, Image2Label, 87, rest);
    OccursInPrefix(SwapPromptHead, RequestLabel, 139, rest);
  }

  /** The request can be read back out of the instruction text. */
  lemma UserRequestRoundTrip(prompt: string)
    ensures UserRequestOf(SwapPrompt(prompt)) == Some(prompt)
  {
    CutAround(SwapPromptHead, SwapPromptTail, SwapPrompt(prompt), prompt);
  }

  /** Only template instances are recognised, and each is the template
      applied to the request recognised in it. */
  lemma UserRequestRecognised(finalPrompt: string, prompt: string)
    requires UserRequestOf(finalPrompt) == Some(prompt)
    ensures SwapPrompt(prompt) == finalPrompt
  {
    CutAround(SwapPromptHead, SwapPromptTail, finalPrompt, prompt);
  }

  /** The template is injective: different requests give different instructions. */
  lemma SwapPromptInjective(p: string, q: string)
    requires SwapPrompt(p) == SwapPrompt(q)
    ensures p == q
  {
    UserRequestRoundTrip(p);
    UserRequestRoundTrip(q);
  }

  /** `swapTexture`'s request: target image, then reference image, then the
      instruction text; no configuration. The recogniser reads the three
      inputs back in that order. */
  function BuildSwapTexture(target: string, reference: string, prompt: string): (r: Request)
    ensures SwapInputsOf(r) == Some(SwapInputs(target, reference, prompt))
  {
    UserRequestRoundTrip(prompt);
    Request(SwapModel,
            [InlineData(Jpeg, target), InlineData(Jpeg, reference), Text(SwapPrompt(prompt))],
            NoConfig)
  }

  /** `generateImage`'s request: the prompt alone, and the image settings
      passed through as given; the recogniser reads all three back unchanged. */
  function BuildGenerateImage(prompt: string, aspectRatio: AspectRatio, size: ImageSize): (r: Request)
    ensures GenerateInputsOf(r) == Some(GenerateInputs(prompt, aspectRatio, size))
  {
    Request(GenerateModel, [Text(prompt)], ImageConfig(aspectRatio, size))
  }

  /** The analysis configuration: a thinking entry with the budget 32768
      exactly when thinking is asked for, and no entry at all otherwise. */
  function AnalyzeConfig(useThinking: bool): (r: Config)
    ensures r.ThinkingConfig? <==> useThinking
    ensures r.ThinkingConfig? ==> r.thinkingBudget == 32768
    ensures !r.ThinkingConfig? ==> r == NoConfig
  {
    if useThinking then ThinkingConfig(MaxThinkingBudget) else NoConfig
  }

  /** `analyzeImage`'s request: the image, then the prompt; the recogniser
      reads both back, and the thinking flag from the configuration alone. */
  function BuildAnalyzeImage(image: string, prompt: string, useThinking: bool): (r: Request)
    ensures AnalyzeInputsOf(r) == Some(AnalyzeInputs(image, prompt, useThinking))
  {
    Request(AnalyzeModel, [InlineData(Jpeg, image), Text(prompt)], AnalyzeConfig(useThinking))
  }

  datatype SwapInputs = SwapInputs(target: string, reference: string, prompt: string)
  datatype GenerateInputs = GenerateInputs(prompt: string, aspectRatio: AspectRatio, size: ImageSize)
  datatype AnalyzeInputs = AnalyzeInputs(image: string, prompt: string, useThinking: bool)

  /** Reads a texture-swap request: the first JPEG part is the target, the
      second the reference, the third the instruction text. */
  function SwapInputsOf(req: Request): Option<SwapInputs>
  {
    if req.model == SwapModel && req.config == NoConfig && |req.parts| == 3
       && req.parts[0].InlineData? && req.parts[0].mimeType == Jpeg
       && req.parts[1].InlineData? && req.parts[1].mimeType == Jpeg
       && req.parts[2].Text? && UserRequestOf(req.parts[2].text).Some?
    then Some(SwapInputs(req.parts[0].data, req.parts[1].data, UserRequestOf(req.parts[2].text).value))
    else None
  }

  /** Reads a generation request: a single text part and an image configuration. */
  function GenerateInputsOf(req: Request): Option<GenerateInputs>
  {
    if req.model == GenerateModel && |req.parts| == 1 && req.parts[0].Text?
       && req.config.ImageConfig?
    then Some(GenerateInputs(req.parts[0].text, req.config.aspectRatio, req.config.imageSize))
    else None
  }

  /** Reads an analysis request: a JPEG part, then a text part, and either no
      configuration or the maximal thinking budget. */
  function AnalyzeInputsOf(req: Request): Option<AnalyzeInputs>
  {
    if req.model == AnalyzeModel && |req.parts| == 2
       && req.parts[0].InlineData? && req.parts[0].mimeType == Jpeg
       && req.parts[1].Text?
       && (req.config == NoConfig || req.config == ThinkingConfig(MaxThinkingBudget))
    then Some(AnalyzeInputs(req.parts[0].data, req.parts[1].text, req.config.ThinkingConfig?))
    else None
  }

  /** Every request recognised as a swap request is the one the builder makes. */
  lemma SwapRecognised(req: Request, x: SwapInputs)
    requires SwapInputsOf(req) == Some(x)
    ensures BuildSwapTexture(x.target, x.reference, x.prompt) == req
  {
    UserRequestRecognised(req.parts[2].text, x.prompt);
    assert req.parts == [req.parts[0], req.parts[1], req.parts[2]];
  }

  /** Exchanging two different images changes the request: order is significant. */
  lemma SwapOrderSignificant(target: string, reference: string, prompt: string)
    requires target != reference
    ensures BuildSwapTexture(target, reference, prompt) != BuildSwapTexture(reference, target, prompt)
    ensures BuildSwapTexture(target, reference, prompt).parts[0] == InlineData(Jpeg, target)
    ensures BuildSwapTexture(reference, target, prompt).parts[0] == InlineData(Jpeg, reference)
  {
  }

  /** Every request recognised as a generation request is the one the builder makes. */
  lemma GenerateRecognised(req: Request, x: GenerateInputs)
    requires GenerateInputsOf(req) == Some(x)
    ensures BuildGenerateImage(x.prompt, x.aspectRatio, x.size) == req
  {
    assert req.parts == [req.parts[0]];
  }

  /** Every request recognised as an analysis request is the one the builder makes. */
  lemma AnalyzeRecognised(req: Request, x: AnalyzeInputs)
    requires AnalyzeInputsOf(req) == Some(x)
    ensures BuildAnalyzeImage(x.image, x.prompt, x.useThinking) == req
  {
    assert req.parts == [req.parts[0], req.parts[1]];
  }
}
