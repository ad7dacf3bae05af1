/**
 * The `/analyze` endpoint of final11/project/backend/api/main.py: input
 * validation, the process-lifetime verdict cache keyed by the stripped text,
 * the credential check and the scoring call, whose outcome is a parameter.
 */
module AnalyzeApi {
  import opened Wrappers
  import opened Whitespace
  import opened Verdicts

  const MinTextLength := 10

  /** An HTTP error response: status code and detail message. */
  datatype HttpError = HttpError(status: int, detail: string)

  const TooShort := HttpError(400, "Text is too short")
  const MissingKey := HttpError(503, "LLM unavailable (missing OPENAI_API_KEY)")
  const Unavailable := HttpError(502, "LLM temporarily unavailable")

  /** The cache key for a request text: the text with Python's `strip()` applied. */
  function CacheKey(text: string): string {
    Trim(text, IsPySpace)
  }

  /** What one call answers, and the cache it leaves behind. */
  datatype Step = Step(response: Result<Verdict, HttpError>, cache: map<string, Verdict>)

  /**
   * One call of `analyze` on cache `cache`, with the credential present or
   * not, and `reply` standing for what the provider would answer if asked.
   */
  function AnalyzeStep(cache: map<string, Verdict>, keyConfigured: bool, text: string, reply: ProviderReply): (s: Step)
    ensures var key := CacheKey(text);
      && (s.response == Failure(TooShort) <==> |key| < MinTextLength)
      && (s.response == Failure(MissingKey) <==> |key| >= MinTextLength && key !in cache && !keyConfigured)
      && (|key| >= MinTextLength && key in cache ==> s == Step(Success(cache[key]), cache))
      && (s.response.Failure? ==> s.cache == cache)
      && (s.response.Failure? ==> s.response.error in {TooShort, MissingKey, Unavailable})
      && (s.response.Success? ==> key in s.cache && s.cache[key] == s.response.value)
      && (|key| >= MinTextLength && key !in cache && keyConfigured ==>
            if Score(reply).Success? then s == Step(Success(Score(reply).value), cache[key := Score(reply).value])
            else s == Step(Failure(Unavailable), cache))
      && (s.cache == cache || (key !in cache && s.response.Success? && s.cache == cache[key := s.response.value]))
  {
    Respond(cache, keyConfigured, CacheKey(text), reply)
  }

  /** What `analyze` does once it has the stripped text `key`. */
  function Respond(cache: map<string, Verdict>, keyConfigured: bool, key: string, reply: ProviderReply): Step {
    if |key| < MinTextLength then Step(Failure(TooShort), cache)
    else if key in cache then Step(Success(cache[key]), cache)
    else if !keyConfigured then Step(Failure(MissingKey), cache)
    else match Score(reply)
      case Success(v) => Step(Success(v), cache[key := v])
      case Failure(_) => Step(Failure(Unavailable), cache)
  }

  /** Texts that differ only in surrounding whitespace are the same request. */
  lemma StripIsFirst(cache: map<string, Verdict>, keyConfigured: bool, text: string, reply: ProviderReply)
    ensures AnalyzeStep(cache, keyConfigured, text, reply) == AnalyzeStep(cache, keyConfigured, CacheKey(text), reply)
  {
  }

  /**
   * Once a call has answered with a verdict, an immediate repeat with the same
   * stripped text answers the identical verdict, whatever the credential and
   * the provider would now do, and leaves the cache as it is.
   */
  lemma RepeatReturnsSameVerdict(cache: map<string, Verdict>, keyConfigured: bool, text: string, reply: ProviderReply,
                                 keyConfigured': bool, text': string, reply': ProviderReply)
    requires CacheKey(text') == CacheKey(text)
    ensures var first := AnalyzeStep(cache, keyConfigured, text, reply);
      first.response.Success? ==> AnalyzeStep(first.cache, keyConfigured', text', reply') == first
  {
  }

  /** Storing a normalized verdict keeps every cached verdict normalized. */
  lemma StoreKeepsNormalized(cache: map<string, Verdict>, key: string, v: Verdict)
    requires forall k :: k in cache ==> Normalized(cache[k])
    requires Normalized(v)
    ensures var stored := cache[key := v]; forall k :: k in stored ==> Normalized(stored[k])
  {
  }

  /** Every verdict the cache holds or a call returns is a normalized one. */
  lemma CacheStaysNormalized(cache: map<string, Verdict>, keyConfigured: bool, text: string, reply: ProviderReply)
    requires forall k :: k in cache ==> Normalized(cache[k])
    ensures var s := AnalyzeStep(cache, keyConfigured, text, reply);
      && (forall k :: k in s.cache ==> Normalized(s.cache[k]))
      && (s.response.Success? ==> Normalized(s.response.value))
  {
    var key := CacheKey(text);
    var s := Respond(cache, keyConfigured, key, reply);
    if |key| >= MinTextLength && key !in cache && keyConfigured && Score(reply).Success? {
      StoreKeepsNormalized(cache, key, Score(reply).value);
    }
    assert AnalyzeStep(cache, keyConfigured, text, reply) == s;
  }

  /**
   * Without a credential nothing is ever cached: from an empty cache every
   * call answers 400 or 503, and 503 whenever the stripped text is long
   * enough, and the cache stays empty.
   */
  lemma NoCredentialNeverCaches(text: string, reply: ProviderReply)
    ensures var s := AnalyzeStep(map[], false, text, reply);
      && s.cache == map[]
      && (s.response == Failure(TooShort) || s.response == Failure(MissingKey))
      && (|CacheKey(text)| >= MinTextLength ==> s.response == Failure(MissingKey))
  {
  }

  /**
   * The service holds the process-lifetime cache; whether the credential is
   * configured is read once, when the process starts.
   */
  class AnalyzeService {
    const keyConfigured: bool
    var cache: map<string, Verdict>

    /**
     * The cache holds normalized verdicts only, and nothing at all when no
     * credential is configured: storing needs a successful score, and
     * scoring needs the credential.
     */
    ghost predicate Valid()
      reads this
    {
      && (!keyConfigured ==> cache == map[])
      && (forall k :: k in cache ==> Normalized(cache[k]))
    }

    constructor (keyConfigured: bool)
      ensures Valid()
      ensures this.keyConfigured == keyConfigured && cache == map[]
    {
      this.keyConfigured := keyConfigured;
      cache := map[];
    }

    /** `analyze`, with `reply` standing for what the provider answers if it is asked. */
    method Analyze(text: string, reply: ProviderReply) returns (response: Result<Verdict, HttpError>)
      requires Valid()
      modifies this
      ensures Valid()
      ensures Step(response, cache) == AnalyzeStep(old(cache), keyConfigured, text, reply)
      ensures !keyConfigured && |CacheKey(text)| >= MinTextLength ==> response == Failure(MissingKey)
    {
      var key := CacheKey(text);
      if |key| < MinTextLength {
        return Failure(TooShort);
      }
      if key in cache {
        return Success(cache[key]);
      }
      if !keyConfigured {
        return Failure(MissingKey);
      }
      var scored := Score(reply);
      if scored.Success? {
        StoreKeepsNormalized(cache, key, scored.value);
        cache := cache[key := scored.value];
        response := Success(scored.value);
      } else {
        response := Failure(Unavailable);
      }
    }
  }
}
