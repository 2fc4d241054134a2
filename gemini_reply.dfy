/**
 * The reply of the image-generation endpoint as the app reads it
 * (VibeCodeApp.jsx:158-166). Each level of the JSON document that the
 * optional chain `result?.candidates?.[0]?.content?.parts?.find(p =>
 * p.inlineData)?.inlineData?.data` walks is a datatype whose absent fields are
 * `None`.
 */
module GeminiReply {

  import opened Wrappers

  datatype InlineData = InlineData(mimeType: Option<string>, data: Option<string>)
  datatype Part = Part(text: Option<string>, inlineData: Option<InlineData>)
  datatype Content = Content(parts: Option<seq<Part>>)
  datatype Candidate = Candidate(content: Option<Content>)
  datatype Body = Body(candidates: Option<seq<Candidate>>)

  /**
   * One call of `fetch`: either it rejects (no response at all), or a response
   * arrives with an HTTP status and a body that `response.json()` either parses
   * (`Some`) or rejects (`None`).
   */
  datatype Reply = NetworkFailure | HttpReply(status: int, body: Option<Body>)

  /** `response.ok`: a status in the range 200-299. */
  predicate IsOkStatus(status: int)
  {
    200 <= status <= 299
  }

  /** `parts.find(p => p.inlineData)`, as the index of the part it finds. */
  function FirstInlinePart(parts: seq<Part>): (i: Option<nat>)
    ensures i.Some? ==> i.value < |parts| && parts[i.value].inlineData.Some?
    ensures i.Some? ==> forall j :: 0 <= j < i.value ==> parts[j].inlineData.None?
    ensures i.None? ==> forall j :: 0 <= j < |parts| ==> parts[j].inlineData.None?
  {
    if parts == [] then None
    else if parts[0].inlineData.Some? then Some(0)
    else
      match FirstInlinePart(parts[1..])
      case None => None
      case Some(j) => Some(j + 1)
  }

  /** The optional chain of line 163 on a parsed body. */
  function BodyImageData(body: Body): Option<string>
  {
    match body.candidates
    case None => None
    case Some(cs) =>
      if |cs| == 0 then None
      else match cs[0].content
        case None => None
        case Some(content) =>
          match content.parts
          case None => None
          case Some(parts) =>
            match FirstInlinePart(parts)
            case None => None
            case Some(i) => parts[i].inlineData.value.data
  }

  /**
   * The image payload an attempt yields, or `None` when the attempt throws: a
   * rejected fetch, a status that is not ok, a body that is not JSON, or an
   * undefined or empty `base64Data` (`!base64Data`, line 165).
   */
  function PayloadOf(reply: Reply): (payload: Option<string>)
    ensures payload.Some? ==> payload.value != ""
    ensures payload.Some? ==> reply.HttpReply? && IsOkStatus(reply.status) && reply.body.Some?
  {
    match reply
    case NetworkFailure => None
    case HttpReply(status, body) =>
      if !IsOkStatus(status) then None
      else match body
        case None => None
        case Some(b) =>
          match BodyImageData(b)
          case None => None
          case Some(d) => if d == "" then None else Some(d)
  }

  /**
   * The reply is an ok response whose first candidate's `i`-th part is the
   * first part with `inlineData`, and that part's `data` is the non-empty `d`.
   */
  ghost predicate FirstImagePart(reply: Reply, i: nat, d: string)
  {
    && reply.HttpReply?
    && IsOkStatus(reply.status)
    && reply.body.Some?
    && reply.body.value.candidates.Some?
    && |reply.body.value.candidates.value| > 0
    && reply.body.value.candidates.value[0].content.Some?
    && reply.body.value.candidates.value[0].content.value.parts.Some?
    && var parts := reply.body.value.candidates.value[0].content.value.parts.value;
       && i < |parts|
       && parts[i].inlineData.Some?
       && (forall j :: 0 <= j < i ==> parts[j].inlineData.None?)
       && parts[i].inlineData.value.data == Some(d)
       && d != ""
  }

  /** An attempt succeeds with `d` exactly when `d` is the data of the first part carrying `inlineData`. */
  lemma PayloadIsFirstImagePart(reply: Reply, d: string)
    ensures PayloadOf(reply) == Some(d) <==> exists i :: FirstImagePart(reply, i, d)
  {
    if PayloadOf(reply) == Some(d) {
      var parts := reply.body.value.candidates.value[0].content.value.parts.value;
      assert FirstImagePart(reply, FirstInlinePart(parts).value, d);
    }
    if i: nat :| FirstImagePart(reply, i, d) {
      var parts := reply.body.value.candidates.value[0].content.value.parts.value;
      assert FirstInlinePart(parts) == Some(i);
    }
  }

  /** Only the first part carrying `inlineData` is read: an image in a later part is ignored. */
  lemma LaterImagePartIgnored(status: int, d: string)
    requires IsOkStatus(status)
    ensures PayloadOf(HttpReply(status, Some(Body(Some([Candidate(Some(Content(Some([
              Part(None, Some(InlineData(Some("image/png"), None))),
              Part(None, Some(InlineData(Some("image/png"), Some(d))))]))))]))))) == None
  {
  }
}
