/**
 * The backend's reply handling for one scoring call (`_openai_score` in
 * final11/project/backend/api/main.py): how the provider's HTTP reply and the
 * model's decoded JSON object become a fixed-shape verdict, or a failure.
 */
module Verdicts {
  import opened Wrappers

  /** The provider's decoded response body (`data`), kept verbatim as `raw_model_output`. */
  type RawJson = string

  /**
   * The model's `confidence` entry as `float(...)` sees it: absent (the 0.5
   * default is used), convertible to a number, or not convertible (null, a
   * list, a non-numeric string), in which case `float` raises.
   */
  datatype ConfidenceField = NoConfidence | Number(value: real) | Unconvertible

  /**
   * A `reasons` or `sources` entry: absent (the empty default is used), the
   * strings `list(...)` yields for it (a list's items, a string's characters,
   * an object's keys), or a value that `list(...)` rejects or whose items are
   * not strings (the response model then refuses it).
   */
  datatype ListField = NoList | Items(items: seq<string>) | Invalid

  /**
   * The entries of the model's JSON object. `Some(s)` under `result` or
   * `emotion` is `str(...)` of the value present.
   */
  datatype Fields = Fields(
    result: Option<string>,
    confidence: ConfidenceField,
    emotion: Option<string>,
    reasons: ListField,
    sources: ListField)

  /** The message content: `json.loads` fails or yields a non-object, or yields an object. */
  datatype Content = NotAnObject | Object(fields: Fields)

  /** A status-200 body: not JSON at all, or JSON whose `choices[0].message.content` may be missing. */
  datatype ReplyBody = BodyNotJson | Json(data: RawJson, content: Option<Content>)

  /** What the outbound chat-completion request produced. */
  datatype ProviderReply = NoResponse | Answered(status: int, body: ReplyBody)

  /** The user-facing verdict (`AnalyzeResponse`). */
  datatype Verdict = Verdict(
    result: string,
    confidence: real,
    emotion: string,
    reasons: seq<string>,
    sources: seq<string>,
    rawModelOutput: RawJson)

  /** Why a scoring call failed; every one of them is an exception in the source. */
  datatype ScoreError =
    | TransportError          // the HTTP client raised (timeout, connection)
    | ProviderError(status: int)
    | ResponseNotJson
    | UnexpectedResponse      // no `choices[0].message.content`
    | ContentParseError       // the content is not a usable JSON object

  const DefaultResult := "uncertain"
  const DefaultEmotion := "mixed"

  const EmotionalTone := "Емоційний/маніпулятивний тон тексту вплинув на зниження довіри до новини."
  const FactualTone := "Тон тексту переважно нейтральний/фактологічний, тому головну роль відіграють факти та джерела."
  const MixedTone := "У тексті поєднуються емоційні елементи та фактична інформація; тон враховано під час оцінки."

  /** The tone sentence for an emotion: one per conventional value, the mixed one for anything else. */
  function ToneReason(emotion: string): (r: string)
    ensures r == EmotionalTone <==> emotion == "emotional"
    ensures r == FactualTone <==> emotion == "factual"
    ensures r == MixedTone <==> emotion != "emotional" && emotion != "factual"
  {
    if emotion == "emotional" then EmotionalTone
    else if emotion == "factual" then FactualTone
    else MixedTone
  }

  /** `reasons` with `tone` appended unless that exact string is already there. */
  function Augment(reasons: seq<string>, tone: string): (r: seq<string>)
    ensures reasons <= r
    ensures tone in r
    ensures |r| == if tone in reasons then |reasons| else |reasons| + 1
    ensures multiset(r)[tone] == if tone in reasons then multiset(reasons)[tone] else 1
  {
    if tone in reasons then reasons else reasons + [tone]
  }

  /** The fixed confidence policy: only the verdict's `result` decides it. */
  function NormalizedConfidence(result: string): (c: real)
    ensures c == 0.1 || c == 0.5 || c == 0.9
    ensures c == 0.9 <==> result == "real"
    ensures c == 0.1 <==> result == "fake"
  {
    if result == "real" then 0.9
    else if result == "fake" then 0.1
    else 0.5
  }

  /** A verdict as normalization leaves it: policy confidence and the tone sentence present. */
  predicate Normalized(v: Verdict) {
    && v.confidence == NormalizedConfidence(v.result)
    && ToneReason(v.emotion) in v.reasons
  }

  function ListOrEmpty(f: ListField): seq<string>
    requires f != Invalid
  {
    if f.Items? then f.items else []
  }

  /**
   * Turns the model's JSON object into a verdict. Any entry that cannot be
   * converted fails the whole call; there is no partial verdict.
   */
  function Normalize(f: Fields, data: RawJson): (r: Result<Verdict, ScoreError>)
    ensures r.Failure? <==> f.confidence == Unconvertible || f.reasons == Invalid || f.sources == Invalid
    ensures r.Failure? ==> r.error == ContentParseError
    ensures r.Success? ==>
      var v := r.value;
      && v.result == (if f.result.Some? then f.result.value else DefaultResult)
      && v.emotion == (if f.emotion.Some? then f.emotion.value else DefaultEmotion)
      && (v.confidence == 0.1 || v.confidence == 0.5 || v.confidence == 0.9)
      && (v.confidence == 0.9 <==> v.result == "real")
      && (v.confidence == 0.1 <==> v.result == "fake")
      && ListOrEmpty(f.reasons) <= v.reasons
      && ToneReason(v.emotion) in v.reasons
      && |v.reasons| <= |ListOrEmpty(f.reasons)| + 1
      && v.reasons == Augment(ListOrEmpty(f.reasons), ToneReason(v.emotion))
      && v.sources == ListOrEmpty(f.sources)
      && v.rawModelOutput == data
      && Normalized(v)
  {
    if f.confidence == Unconvertible || f.reasons == Invalid || f.sources == Invalid then
      Failure(ContentParseError)
    else
      var result := if f.result.Some? then f.result.value else DefaultResult;
      var emotion := if f.emotion.Some? then f.emotion.value else DefaultEmotion;
      var reasons := Augment(ListOrEmpty(f.reasons), ToneReason(emotion));
      Success(Verdict(result, NormalizedConfidence(result), emotion, reasons, ListOrEmpty(f.sources), data))
  }

  /**
   * One scoring call, given what the provider answered: a non-200 status, a
   * body that is not JSON, a missing message content and an unusable content
   * each fail; otherwise the content object is normalized.
   */
  function Score(reply: ProviderReply): (r: Result<Verdict, ScoreError>)
    ensures reply.NoResponse? ==> r == Failure(TransportError)
    ensures reply.Answered? && reply.status != 200 ==> r == Failure(ProviderError(reply.status))
    ensures r.Success? <==>
      && reply.Answered? && reply.status == 200
      && reply.body.Json? && reply.body.content.Some? && reply.body.content.value.Object?
      && Normalize(reply.body.content.value.fields, reply.body.data).Success?
    ensures r.Success? ==> Normalized(r.value) && r.value.rawModelOutput == reply.body.data
    ensures reply.Answered? && reply.status == 200 && reply.body.Json?
            && reply.body.content.Some? && reply.body.content.value.Object? ==>
      r == Normalize(reply.body.content.value.fields, reply.body.data)
  {
    match reply
    case NoResponse => Failure(TransportError)
    case Answered(status, body) =>
      if status != 200 then Failure(ProviderError(status))
      else match body
        case BodyNotJson => Failure(ResponseNotJson)
        case Json(data, content) =>
          match content
          case None => Failure(UnexpectedResponse)
          case Some(NotAnObject) => Failure(ContentParseError)
          case Some(Object(fields)) => Normalize(fields, data)
  }

  /** Augmenting twice is augmenting once. */
  lemma AugmentIdempotent(reasons: seq<string>, tone: string)
    ensures Augment(Augment(reasons, tone), tone) == Augment(reasons, tone)
  {
  }

  /** The model's own confidence number never influences the verdict. */
  lemma ConfidenceNumberIgnored(f: Fields, data: RawJson, x: real)
    ensures Normalize(f.(confidence := Number(x)), data) == Normalize(f.(confidence := NoConfidence), data)
  {
  }
}
