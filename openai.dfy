/** The completion client (app/lib/openai.ts). `GenerateLocalRecommendations` asks an
    external chat-completion service for recommendations and never fails: it returns
    the parsed reply, or one of two single-record fallbacks.

    The network call and `JSON.parse` are outside the model. The call is given as its
    observable outcome (`Completion`), the parser as an oracle that either yields a
    value or fails. */
module OpenAI {
  import opened Types

  /** `LocalRecommendationRequest`: every field optional. `venueType` stands for `type`. */
  datatype Request = Request(
    location: Option<string>,
    vibes: Option<seq<string>>,
    venueType: Option<string>,
    budget: Option<string>)

  /** One element of `LocalRecommendationResponse.recommendations`. */
  datatype Entry = Entry(
    name: string,
    address: string,
    venueType: string,
    description: string,
    vibes: seq<string>,
    reasoning: string)

  /** `LocalRecommendationResponse`, as far as the application can observe it. The
      parsed reply is returned without validation, so `recommendations` need not be an
      array at all: `None` stands for any parsed value whose `recommendations` is not an
      array (missing, null, a string, ...). `confidence` is passed through unclamped. */
  datatype Response = Response(recommendations: Option<seq<Entry>>, confidence: real)

  /** What the awaited `openai.chat.completions.create(...)` call produced: it threw
      (network, HTTP or authentication failure, or a reply without `choices`), or it
      returned and `choices[0]?.message?.content` is the given optional text. */
  datatype Completion = Threw | Returned(content: Option<string>)

  /** The three provenance tiers the client can answer from. The source does not tag
      its answer; this classification exists only to state properties. */
  datatype Tier = ModelTier | ParseFallbackTier | ServiceFallbackTier

  /** JavaScript `a || b` on an optional string: `undefined` and "" are falsy. */
  function OrString(a: Option<string>, b: string): (r: string)
    ensures a.Some? && a.value != "" ==> r == a.value
    ensures a.None? || a.value == "" ==> r == b
  {
    match a
    case Some(s) => if s != "" then s else b
    case None => b
  }

  /** JavaScript `a || b` on an optional array: every array, the empty one included, is
      truthy, so only `undefined` falls back. */
  function OrList(a: Option<seq<string>>, b: seq<string>): (r: seq<string>)
    ensures a.Some? ==> r == a.value
    ensures a.None? ==> r == b
  {
    match a
    case Some(s) => s
    case None => b
  }

  /** The content passes `if (!content)`: of the outcomes, exactly a thrown call, a
      missing content and the empty string are falsy. */
  function HasContent(c: Completion): (b: bool)
    ensures !b <==> c == Threw || c == Returned(None) || c == Returned(Some(""))
  {
    c.Returned? && c.content.Some? && c.content.value != ""
  }

  /** Which tier answers a given outcome: the service fallback for exactly the three
      falsy outcomes; otherwise the model when the content parses, the parse fallback
      when it does not. */
  function TierOf(c: Completion, parse: string -> Option<Response>): (t: Tier)
    ensures t == ServiceFallbackTier <==> c == Threw || c == Returned(None) || c == Returned(Some(""))
    ensures t != ServiceFallbackTier ==> (t == ModelTier <==> parse(c.content.value).Some?)
  {
    if !HasContent(c) then ServiceFallbackTier
    else if parse(c.content.value).Some? then ModelTier
    else ParseFallbackTier
  }

  /** The texts of the two fallback records. */
  const ParseFallbackName := "AI-Generated Recommendation"
  const ParseFallbackAddress := "Near you"
  const ParseFallbackDescription := "Based on your preferences, this spot offers great vibes and quality."
  const ParseFallbackReasoning := "Generated based on your request preferences"
  const ParseFallbackVibes := ["trending", "popular"]
  const ServiceFallbackName := "Local Favorite"
  const ServiceFallbackAddress := "Downtown"
  const ServiceFallbackDescription := "A popular local spot known for great atmosphere and quality."
  const ServiceFallbackReasoning := "Fallback recommendation due to API limitations"
  const ServiceFallbackVibes := ["trending"]
  const DefaultVenueType := "restaurant"

  /** The reply synthesised when the content does not parse: one record echoing the
      request, with confidence 0.7. */
  function ParseFallback(request: Request): (r: Response)
    ensures r.confidence == 0.7
    ensures r.recommendations.Some? && |r.recommendations.value| == 1
    ensures var e := r.recommendations.value[0];
      && e.name == ParseFallbackName
      && (request.location.Some? && request.location.value != "" ==> e.address == request.location.value)
      && (request.location.None? || request.location.value == "" ==> e.address == ParseFallbackAddress)
      && (request.venueType.Some? && request.venueType.value != "" ==> e.venueType == request.venueType.value)
      && (request.venueType.None? || request.venueType.value == "" ==> e.venueType == DefaultVenueType)
      && (request.vibes.Some? ==> e.vibes == request.vibes.value)
      && (request.vibes.None? ==> e.vibes == ParseFallbackVibes)
      && e.description == ParseFallbackDescription
      && e.reasoning == ParseFallbackReasoning
  {
    Response(
      Some([Entry(
        ParseFallbackName,
        OrString(request.location, ParseFallbackAddress),
        OrString(request.venueType, DefaultVenueType),
        ParseFallbackDescription,
        OrList(request.vibes, ParseFallbackVibes),
        ParseFallbackReasoning)]),
      0.7)
  }

  /** The reply synthesised when the call fails or returns no content: one record echoing
      the request, with confidence 0.5. */
  function ServiceFallback(request: Request): (r: Response)
    ensures r.confidence == 0.5
    ensures r.recommendations.Some? && |r.recommendations.value| == 1
    ensures var e := r.recommendations.value[0];
      && e.name == ServiceFallbackName
      && (request.location.Some? && request.location.value != "" ==> e.address == request.location.value)
      && (request.location.None? || request.location.value == "" ==> e.address == ServiceFallbackAddress)
      && (request.venueType.Some? && request.venueType.value != "" ==> e.venueType == request.venueType.value)
      && (request.venueType.None? || request.venueType.value == "" ==> e.venueType == DefaultVenueType)
      && (request.vibes.Some? ==> e.vibes == request.vibes.value)
      && (request.vibes.None? ==> e.vibes == ServiceFallbackVibes)
      && e.description == ServiceFallbackDescription
      && e.reasoning == ServiceFallbackReasoning
  {
    Response(
      Some([Entry(
        ServiceFallbackName,
        OrString(request.location, ServiceFallbackAddress),
        OrString(request.venueType, DefaultVenueType),
        ServiceFallbackDescription,
        OrList(request.vibes, ServiceFallbackVibes),
        ServiceFallbackReasoning)]),
      0.5)
  }

  /** `generateLocalRecommendations`: total, never throws. Parsed content is returned
      as it is; content that does not parse yields the parse fallback; a failed call,
      missing content or empty content yields the service fallback. */
  function GenerateLocalRecommendations(
    request: Request, completion: Completion, parse: string -> Option<Response>): (r: Response)
    ensures TierOf(completion, parse) == ModelTier ==> r == parse(completion.content.value).value
    ensures TierOf(completion, parse) == ParseFallbackTier ==> r == ParseFallback(request)
    ensures TierOf(completion, parse) == ServiceFallbackTier ==> r == ServiceFallback(request)
  {
    match completion
    case Threw => ServiceFallback(request)
    case Returned(content) =>
      if content.None? || content.value == "" then
        ServiceFallback(request)  // `throw new Error('No response content')`, caught below
      else
        match parse(content.value)
        case Some(value) => value
        case None => ParseFallback(request)
  }

  /** A thrown call, a reply without content and a reply whose content is the empty
      string all take the service-failure tier (confidence 0.5), never the parse tier. */
  lemma MissingContentIsServiceFailure(request: Request, parse: string -> Option<Response>)
    ensures GenerateLocalRecommendations(request, Threw, parse) == ServiceFallback(request)
    ensures GenerateLocalRecommendations(request, Returned(None), parse) == ServiceFallback(request)
    ensures GenerateLocalRecommendations(request, Returned(Some("")), parse) == ServiceFallback(request)
  {
  }

  /** Whatever the outcome, the reply is either the parsed value or a one-record fallback:
      the application always has something to show when the service fails. */
  lemma FallbacksAreNonEmpty(request: Request, completion: Completion, parse: string -> Option<Response>)
    ensures var r := GenerateLocalRecommendations(request, completion, parse);
      TierOf(completion, parse) != ModelTier ==>
        r.recommendations.Some? && |r.recommendations.value| == 1 && (r.confidence == 0.7 || r.confidence == 0.5)
  {
  }

  /** No validation: whatever confidence the parsed reply carries, negative or above
      one, comes back unchanged. */
  lemma ConfidenceNotClamped(request: Request, text: string, reply: Response)
    requires text != ""
    ensures GenerateLocalRecommendations(request, Returned(Some(text)), _ => Some(reply)).confidence
      == reply.confidence
  {
  }

  /** The tier cannot be recovered from the reply: a model reply can be identical to the
      service fallback (confidence 0.5, "Local Favorite") while the service succeeded. */
  lemma TierNotRecoverableFromReply(request: Request)
    ensures var parse := (_: string) => Some(ServiceFallback(request));
      && TierOf(Returned(Some("{}")), parse) == ModelTier
      && GenerateLocalRecommendations(request, Returned(Some("{}")), parse)
         == GenerateLocalRecommendations(request, Threw, parse)
  {
  }
}
