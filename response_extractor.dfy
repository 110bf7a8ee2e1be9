/** Reading results out of a response envelope. Image operations scan the
    first candidate's parts in order and take the first one that carries
    non-empty inline data; the analysis operation takes the response text or
    a fixed fallback. */
module ResponseExtractor {
  import opened Wrappers
  import opened Envelope

  /** The prefix put in front of returned image data. */
  const PngDataUrlPrefix: string := "data:image/png;base64,"

  /** The text returned when the analysis produced none. */
  const NoAnalysisText: string := "Nenhuma análise retornada."

  /** The parts of the first candidate, or none when the candidate list, the
      first candidate, its content or its part list is missing. */
  function FirstCandidateParts(resp: Response): (r: seq<ResponsePart>)
    ensures r != [] ==>
      && resp.candidates.Some? && |resp.candidates.value| > 0
      && resp.candidates.value[0].content.Some?
      && resp.candidates.value[0].content.value.parts == Some(r)
  {
    match resp.candidates
    case None => []
    case Some(cs) =>
      if |cs| == 0 then []
      else match cs[0].content
        case None => []
        case Some(c) => match c.parts
          case None => []
          case Some(ps) => ps
  }

  /** A part carries an image: its inline data is present and its data is
      a non-empty string. */
  predicate Qualifies(part: ResponsePart): (b: bool)
    ensures b ==> part.inlineData.Some? && part.inlineData.value.data.Some?
    ensures part.inlineData.None? || part.inlineData.value.data in {None, Some("")} ==> !b
  {
    part.inlineData.Some? && part.inlineData.value.data.Some? && part.inlineData.value.data.value != ""
  }

  /** The image data of a qualifying part. */
  function DataOf(part: ResponsePart): string
    requires Qualifies(part)
  {
    part.inlineData.value.data.value
  }

  /** Index `i` holds the first qualifying part of `ps`. */
  predicate FirstMatch(ps: seq<ResponsePart>, i: int)
  {
    0 <= i < |ps| && Qualifies(ps[i]) && forall j :: 0 <= j < i ==> !Qualifies(ps[j])
  }

  /** The data wrapped as a PNG data URL: the fixed prefix, then the data unchanged. */
  function PngDataUrl(data: string): (r: string)
    ensures |r| == |PngDataUrlPrefix| + |data|
    ensures r[..|PngDataUrlPrefix|] == PngDataUrlPrefix && r[|PngDataUrlPrefix|..] == data
  {
    var r := PngDataUrlPrefix + data;
    assert r[..|PngDataUrlPrefix|] == PngDataUrlPrefix;
    r
  }

  /** The image the scan finds in `ps`, as a recursive definition: when it
      finds one, that is the data URL of some qualifying part. */
  function FirstImage(ps: seq<ResponsePart>): (r: Option<string>)
    ensures r.Some? ==> exists i :: 0 <= i < |ps| && Qualifies(ps[i]) && r.value == PngDataUrl(DataOf(ps[i]))
  {
    if |ps| == 0 then None
    else if Qualifies(ps[0]) then Some(PngDataUrl(DataOf(ps[0])))
    else FirstImage(ps[1..])
  }

  /** The scan finds nothing exactly when no part qualifies, and otherwise
      returns the data URL of the first qualifying part. */
  lemma {:induction false} FirstImageSpec(ps: seq<ResponsePart>)
    ensures FirstImage(ps).None? <==> forall i :: 0 <= i < |ps| ==> !Qualifies(ps[i])
    ensures forall i :: FirstMatch(ps, i) ==> FirstImage(ps) == Some(PngDataUrl(DataOf(ps[i])))
  {
    if |ps| > 0 && !Qualifies(ps[0]) {
      FirstImageSpec(ps[1..]);
      forall i | FirstMatch(ps, i)
        ensures FirstImage(ps) == Some(PngDataUrl(DataOf(ps[i])))
      {
        assert FirstMatch(ps[1..], i - 1);
      }
      if FirstImage(ps).None? {
        forall i | 0 <= i < |ps|
          ensures !Qualifies(ps[i])
        {
          if i > 0 { assert ps[i] == ps[1..][i - 1]; }
        }
      }
    }
  }

  /** Only the first candidate is consulted: the candidates after it never
      change the parts that are scanned. */
  lemma LaterCandidatesIgnored(first: Candidate, rest: seq<Candidate>, other: seq<Candidate>,
                               text: Option<string>, otherText: Option<string>)
    ensures FirstCandidateParts(Response(Some([first] + rest), text))
         == FirstCandidateParts(Response(Some([first] + other), otherText))
  {
  }

  /** Parts after the first qualifying one are never looked at: appending
      anything after a qualifying part does not change the result. */
  lemma {:induction false} FirstImageIgnoresLater(ps: seq<ResponsePart>, later: seq<ResponsePart>)
    requires FirstImage(ps).Some?
    ensures FirstImage(ps + later) == FirstImage(ps)
  {
    if !Qualifies(ps[0]) {
      assert (ps + later)[1..] == ps[1..] + later;
      FirstImageIgnoresLater(ps[1..], later);
    }
  }

  /** The scan of the first candidate's parts, with the early return of the
      source's `for … of` loop. */
  method ExtractImage(resp: Response) returns (r: Option<string>)
    ensures r == FirstImage(FirstCandidateParts(resp))
    ensures r.None? <==> forall i :: 0 <= i < |FirstCandidateParts(resp)| ==> !Qualifies(FirstCandidateParts(resp)[i])
    ensures forall i :: FirstMatch(FirstCandidateParts(resp), i) ==>
      r == Some(PngDataUrl(DataOf(FirstCandidateParts(resp)[i])))
  {
    var ps := FirstCandidateParts(resp);
    FirstImageSpec(ps);
    for i := 0 to |ps|
      invariant FirstImage(ps[i..]) == FirstImage(ps)
    {
      assert ps[i..][1..] == ps[i + 1..];
      if ps[i].inlineData.Some? && ps[i].inlineData.value.data.Some? && ps[i].inlineData.value.data.value != "" {
        return Some(PngDataUrlPrefix + ps[i].inlineData.value.data.value);
      }
    }
    return None;
  }

  /** What an image operation settles with, given what the remote call
      yielded: a rejection's message is passed on, a found image is returned,
      and a response without one becomes the operation's own error. */
  function ImageResult(outcome: RemoteOutcome, noImage: string): (r: Result<string>)
    ensures outcome.Rejected? ==> r == Err(outcome.message)
    ensures r.Ok? ==>
      outcome.Responded? && |r.value| > |PngDataUrlPrefix| && r.value[..|PngDataUrlPrefix|] == PngDataUrlPrefix
    ensures outcome.Responded? && r.Err? ==> r.message == noImage
  {
    match outcome
    case Rejected(m) => Err(m)
    case Responded(resp) =>
      match FirstImage(FirstCandidateParts(resp))
      case Some(url) => Ok(url)
      case None => Err(noImage)
  }

  /** An image operation succeeds exactly when the call responded with a
      qualifying part in its first candidate; its value is then that part's
      data behind the PNG prefix. Otherwise it fails with the rejection's
      message, or with `noImage` when the response held no image. */
  lemma ImageResultSpec(outcome: RemoteOutcome, noImage: string)
    ensures outcome.Rejected? ==> ImageResult(outcome, noImage) == Err(outcome.message)
    ensures outcome.Responded? ==>
      var ps := FirstCandidateParts(outcome.response);
      && (ImageResult(outcome, noImage) == Err(noImage) <==> forall i :: 0 <= i < |ps| ==> !Qualifies(ps[i]))
      && (forall i :: FirstMatch(ps, i) ==> ImageResult(outcome, noImage) == Ok(PngDataUrl(DataOf(ps[i]))))
  {
    if outcome.Responded? {
      FirstImageSpec(FirstCandidateParts(outcome.response));
    }
  }

  /** `response.text || fallback`: the text when it is present and non-empty,
      the fixed fallback otherwise; never empty. */
  function AnalysisText(text: Option<string>): (r: string)
    ensures r != ""
    ensures text.Some? && text.value != "" ==> r == text.value
    ensures r != NoAnalysisText ==> text == Some(r)
  {
    if text.Some? && text.value != "" then text.value else NoAnalysisText
  }

  /** What the analysis operation settles with, given what the remote call yielded. */
  function AnalyzeResult(outcome: RemoteOutcome): (r: Result<string>)
    ensures outcome.Rejected? <==> r.Err?
    ensures r.Err? ==> r.message == outcome.message
    ensures r.Ok? ==> r.value != ""
  {
    match outcome
    case Rejected(m) => Err(m)
    case Responded(resp) => Ok(AnalysisText(resp.text))
  }
}
