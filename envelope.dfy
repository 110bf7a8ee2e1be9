/** The shapes exchanged with the remote generative endpoint: the request
    envelope the service builds and the response envelope it reads. */
module Envelope {
  import opened Wrappers

  /** Aspect-ratio and image-size selections are enumeration members that the
      service passes through without looking at them. */
  type AspectRatio = string
  type ImageSize = string

  /** One content part of a request: inline base64 data with its MIME type,
      or a piece of text. */
  datatype Part = InlineData(mimeType: string, data: string) | Text(text: string)

  /** The optional configuration block of a request. */
  datatype Config =
    | NoConfig
    | ImageConfig(aspectRatio: AspectRatio, imageSize: ImageSize)
    | ThinkingConfig(thinkingBudget: nat)

  /** The argument of one `generateContent` call: the model id, the ordered
      parts of the single content entry, and the configuration. */
  datatype Request = Request(model: string, parts: seq<Part>, config: Config)

  /** A client bound to the credential it was created with. */
  datatype Client = Client(apiKey: string)

  /** Inline data of a response part; every field may be absent. */
  datatype Blob = Blob(mimeType: Option<string>, data: Option<string>)

  /** One part of a response candidate. */
  datatype ResponsePart = ResponsePart(inlineData: Option<Blob>, text: Option<string>)

  /** The content of a candidate; its part list may be absent. */
  datatype Content = Content(parts: Option<seq<ResponsePart>>)

  /** One candidate answer; its content may be absent. */
  datatype Candidate = Candidate(content: Option<Content>)

  /** A response envelope: an optional candidate list and the aggregated
      text the client library exposes as `response.text`. */
  datatype Response = Response(candidates: Option<seq<Candidate>>, text: Option<string>)

  /** What awaiting the remote call yields: a response, or a rejection whose
      message the operation passes on. */
  datatype RemoteOutcome = Responded(response: Response) | Rejected(message: string)

  /** One remote call as it left the service: the client that made it and
      the request it sent. */
  datatype Call = Call(client: Client, request: Request)
}
