/** The application state of the `App` page (app/page.tsx): the request built from a
    chat message, the filter toggle, the filtered view of the recommendations, the
    conversion of a completion reply into records, and the state transitions of
    sending a message. Clock readings, ISO timestamps and random draws are inputs. */
module Page {
  import opened Types
  import opened Strings
  import opened Lists
  import opened OpenAI
  import AgentChat

  /** `activeTab`: "chat" | "map" | "list". */
  datatype Tab = ChatTab | MapTab | ListTab

  datatype Location = Location(latitude: real, longitude: real)

  /** The fixed user location (a state value whose setter is never used). */
  const UserLocation := Location(40.7589, -73.9851)

  /** The fixed request location. */
  const DefaultLocation := "New York City"

  // ---------------------------------------------------------------------------
  // Request builder

  /** `vibeFilters.filter(f => f.active)`. */
  function ActiveFilters(filters: seq<VibeFilter>): seq<VibeFilter> {
    Filter(filters, (f: VibeFilter) => f.active)
  }

  /** The lower-cased labels of the active filters, in filter order. */
  function ActiveLabels(filters: seq<VibeFilter>): (r: seq<string>)
    ensures var active := ActiveFilters(filters);
      && |r| == |active|
      && IsSubsequence(active, filters)
      && (forall i :: 0 <= i < |active| ==> active[i].active && r[i] == ToLower(active[i].caption))
      && (forall i :: 0 <= i < |filters| && filters[i].active ==> filters[i] in active)
      && multiset(active) <= multiset(filters)
      && (forall i :: 0 <= i < |filters| && filters[i].active ==>
            multiset(active)[filters[i]] == multiset(filters)[filters[i]])
  {
    var active := ActiveFilters(filters);
    seq(|active|, i requires 0 <= i < |active| => ToLower(active[i].caption))
  }

  /** The venue type named in a message, by case-insensitive substring search with the
      fixed priority restaurant, bar, cafe; `None` (undefined) when none occurs. */
  function InferVenueType(content: string): (r: Option<string>)
    ensures var lc := ToLower(content);
      && (r == Some("restaurant") <==> Includes(lc, "restaurant"))
      && (r == Some("bar") <==> !Includes(lc, "restaurant") && Includes(lc, "bar"))
      && (r == Some("cafe") <==> !Includes(lc, "restaurant") && !Includes(lc, "bar") && Includes(lc, "cafe"))
      && (r.None? <==> !Includes(lc, "restaurant") && !Includes(lc, "bar") && !Includes(lc, "cafe"))
  {
    var lc := ToLower(content);
    if Includes(lc, "restaurant") then Some("restaurant")
    else if Includes(lc, "bar") then Some("bar")
    else if Includes(lc, "cafe") then Some("cafe")
    else None
  }

  /** The type inference ignores letter case: a message and its lower-cased form agree. */
  lemma InferVenueTypeIgnoresCase(content: string)
    ensures InferVenueType(ToLower(content)) == InferVenueType(content)
  {
    ToLowerIdempotent(content);
  }

  /** The request sent for a chat message: the fixed location, the active labels and the
      inferred type; no budget. */
  function BuildRequest(content: string, filters: seq<VibeFilter>): (r: Request)
    ensures r.location == Some(DefaultLocation)
    ensures r.vibes == Some(ActiveLabels(filters))
    ensures r.venueType == InferVenueType(content)
    ensures r.budget.None?
  {
    Request(Some(DefaultLocation), Some(ActiveLabels(filters)), InferVenueType(content), None)
  }

  /** Every label in the request belongs to an active filter, and every active filter's
      label is in the request. */
  lemma RequestVibesAreActiveLabels(content: string, filters: seq<VibeFilter>)
    ensures var vibes := BuildRequest(content, filters).vibes.value;
      && (forall v :: v in vibes ==> exists i :: 0 <= i < |filters| && filters[i].active && v == ToLower(filters[i].caption))
      && (forall i :: 0 <= i < |filters| && filters[i].active ==> ToLower(filters[i].caption) in vibes)
  {
    var vibes := BuildRequest(content, filters).vibes.value;
    var active := ActiveFilters(filters);
    forall v | v in vibes
      ensures exists i :: 0 <= i < |filters| && filters[i].active && v == ToLower(filters[i].caption)
    {
      var k :| 0 <= k < |vibes| && vibes[k] == v;
      SubsequenceMember(active, filters, k);
    }
    forall i | 0 <= i < |filters| && filters[i].active
      ensures ToLower(filters[i].caption) in vibes
    {
      var k :| 0 <= k < |active| && active[k] == filters[i];
      assert vibes[k] == ToLower(filters[i].caption);
    }
  }

  /** Each element of a subsequence is an element of the sequence. */
  lemma {:induction false} SubsequenceMember<T>(a: seq<T>, b: seq<T>, k: nat)
    requires IsSubsequence(a, b) && k < |a|
    ensures a[k] in b
    decreases |b|
  {
    if a[0] == b[0] && IsSubsequence(a[1..], b[1..]) {
      if k > 0 {
        SubsequenceMember(a[1..], b[1..], k - 1);
      }
    } else {
      SubsequenceMember(a, b[1..], k);
    }
  }

  /** The first quick prompt, in any capitalisation, with one active filter labelled
      "Live Music" in any capitalisation, asks for restaurants in the fixed location,
      tagged "live music". */
  lemma BuildRequestExample(content: string, music: VibeFilter)
    requires ToLower(content) == "find trending restaurants nearby"
    requires ToLower(music.caption) == "live music" && music.active
    ensures BuildRequest(content, [music])
         == Request(Some("New York City"), Some(["live music"]), Some("restaurant"), None)
  {
    var lc := ToLower(content);
    assert Includes(lc, "restaurant") by {
      assert lc == "find trending " + "restaurant" + "s nearby";
      assert OccursAt(lc, "restaurant", 14);
      IncludesIffOccurs(lc, "restaurant");
    }
    assert ActiveFilters([music]) == [music];
    var labels := ActiveLabels([music]);
    assert |labels| == 1 && labels[0] == "live music";
    assert labels == ["live music"];
  }

  /** The search is by substring, not by word: a message about a cafe that mentions
      baristas is classified as a bar, because "bar" outranks "cafe". */
  lemma SubstringOutranksWord(content: string)
    requires ToLower(content) == "find a cafe with great baristas"
    ensures InferVenueType(content) == Some("bar")
  {
    var lc := ToLower(content);
    assert !Includes(lc, "restaurant") by {
      assert 'u' in "restaurant" && 'u' !in lc;
      if Includes(lc, "restaurant") {
        IncludesCharacters(lc, "restaurant", 'u');
      }
    }
    assert Includes(lc, "bar") by {
      assert OccursAt(lc, "bar", 23);
      IncludesIffOccurs(lc, "bar");
    }
  }

  // ---------------------------------------------------------------------------
  // Filter toggle

  /** `handleFilterToggle`'s update: flips `active` on every filter with the given id. */
  function ToggleFilter(filters: seq<VibeFilter>, id: string): (r: seq<VibeFilter>)
    ensures |r| == |filters|
    ensures forall i :: 0 <= i < |r| ==>
      && r[i].id == filters[i].id && r[i].caption == filters[i].caption && r[i].emoji == filters[i].emoji
      && (filters[i].id == id ==> r[i].active == !filters[i].active)
      && (filters[i].id != id ==> r[i] == filters[i])
  {
    seq(|filters|, i requires 0 <= i < |filters| =>
      if filters[i].id == id then filters[i].(active := !filters[i].active) else filters[i])
  }

  /** Toggling the same id twice restores the original filters. */
  lemma ToggleTwiceRestores(filters: seq<VibeFilter>, id: string)
    ensures ToggleFilter(ToggleFilter(filters, id), id) == filters
  {
  }

  // ---------------------------------------------------------------------------
  // Filtered view

  /** The loose match between a tag and a filter label: either one, lower-cased,
      occurs somewhere in the other. A tag and a label of the same length match only
      when they are equal up to letter case. */
  function TagMatches(tag: string, caption: string): (b: bool)
    ensures b <==>
      || (exists i: nat :: OccursAt(ToLower(tag), ToLower(caption), i))
      || (exists i: nat :: OccursAt(ToLower(caption), ToLower(tag), i))
    ensures |tag| == |caption| ==> (b <==> ToLower(tag) == ToLower(caption))
  {
    IncludesIffOccurs(ToLower(tag), ToLower(caption));
    IncludesIffOccurs(ToLower(caption), ToLower(tag));
    Includes(ToLower(tag), ToLower(caption)) || Includes(ToLower(caption), ToLower(tag))
  }

  /** A recommendation passes the active filters exactly when there are none, or some
      active filter matches some of its tags. */
  function Visible(rec: Recommendation, active: seq<VibeFilter>): (b: bool)
    ensures b <==>
      |active| == 0
      || exists i, j :: 0 <= i < |active| && 0 <= j < |rec.vibeTags| && TagMatches(rec.vibeTags[j], active[i].caption)
  {
    var p := (f: VibeFilter) => Any(rec.vibeTags, (tag: string) => TagMatches(tag, f.caption));
    assert forall i :: 0 <= i < |active| ==>
      (p(active[i]) <==> exists j :: 0 <= j < |rec.vibeTags| && TagMatches(rec.vibeTags[j], active[i].caption));
    |active| == 0 || Any(active, p)
  }

  /** A hyphenated tag does not match a label spelled with a space: "live-music" and
      "live music" have the same length and differ, so neither contains the other. A
      recommendation tagged only "cozy" and "live-music" is hidden under "Live Music". */
  lemma HyphenatedTagHiddenUnderSpacedLabel(rec: Recommendation, music: VibeFilter)
    requires rec.vibeTags == ["cozy", "live-music"]
    requires ToLower(music.caption) == "live music"
    ensures !Visible(rec, [music])
  {
    var lm := ToLower(music.caption);
    assert !TagMatches("cozy", music.caption) by {
      assert ToLower("cozy") == "cozy";
      assert 'z' in "cozy" && 'z' !in lm;
      if Includes(lm, "cozy") {
        IncludesCharacters(lm, "cozy", 'z');
      }
    }
    assert !TagMatches("live-music", music.caption) by {
      assert ToLower("live-music") == "live-music";
      assert "live-music"[4] != lm[4];
    }
  }

  /** Matching is loose containment: a "jazz" tag matches a "Jazz & Blues" filter. */
  lemma TagContainedInLabelIsVisible(rec: Recommendation, jazz: VibeFilter)
    requires "jazz" in rec.vibeTags
    requires ToLower(jazz.caption) == "jazz & blues"
    ensures Visible(rec, [jazz])
  {
    var j :| 0 <= j < |rec.vibeTags| && rec.vibeTags[j] == "jazz";
    assert TagMatches(rec.vibeTags[j], jazz.caption) by {
      assert ToLower("jazz") == "jazz";
      assert OccursAt(ToLower(jazz.caption), "jazz", 0);
    }
  }

  /** An empty tag is contained in every label, so a recommendation carrying one passes
      every non-empty set of active filters. */
  lemma EmptyTagPassesEveryFilter(rec: Recommendation, active: seq<VibeFilter>)
    requires "" in rec.vibeTags && active != []
    ensures Visible(rec, active)
  {
    assert ToLower("") == "";
    var j :| 0 <= j < |rec.vibeTags| && rec.vibeTags[j] == "";
    assert TagMatches(rec.vibeTags[j], active[0].caption);
  }

  /** `filteredRecommendations`: the recommendations that pass the active filters, in
      list order; all of them when no filter is active. */
  function FilterRecommendations(recs: seq<Recommendation>, filters: seq<VibeFilter>): (r: seq<Recommendation>)
    ensures ActiveFilters(filters) == [] ==> r == recs
    ensures IsSubsequence(r, recs)
    ensures forall i :: 0 <= i < |r| ==> Visible(r[i], ActiveFilters(filters))
    ensures forall i :: 0 <= i < |recs| && Visible(recs[i], ActiveFilters(filters)) ==> recs[i] in r
    ensures multiset(r) <= multiset(recs)
    ensures forall i :: 0 <= i < |recs| && Visible(recs[i], ActiveFilters(filters)) ==>
      multiset(r)[recs[i]] == multiset(recs)[recs[i]]
  {
    var active := ActiveFilters(filters);
    var r := Filter(recs, (rec: Recommendation) => Visible(rec, active));
    if active == [] then
      FilterAll(recs, (rec: Recommendation) => Visible(rec, active));
      r
    else
      r
  }

  // ---------------------------------------------------------------------------
  // Reply to records

  /** What the environment supplies while one record is built: the `Date.now()` and
      `new Date().toISOString()` readings and three `Math.random()` draws. */
  datatype Sample = Sample(now: nat, timestamp: string, latitudeDraw: real, longitudeDraw: real, openDraw: real)

  /** The record id `ai-<now>-<index>`. */
  function AiId(now: nat, index: nat): string {
    "ai-" + NatToString(now) + "-" + NatToString(index)
  }

  /** Ids built from different indices differ, whatever the clock readings. */
  lemma AiIdInjective(now: nat, i: nat, now': nat, j: nat)
    ensures AiId(now, i) == AiId(now', j) ==> now == now' && i == j
  {
    var a, b, a', b' := NatToString(now), NatToString(i), NatToString(now'), NatToString(j);
    if AiId(now, i) == AiId(now', j) {
      assert AiId(now, i) == "ai-" + (a + "-" + b);
      assert AiId(now', j) == "ai-" + (a' + "-" + b');
      assert a + "-" + b == AiId(now, i)[3..] == a' + "-" + b';
      assert '-' !in a && '-' !in a';
      SplitAtSeparator(a, b, a', b', '-');
      NatToStringInjective(now, now');
      NatToStringInjective(i, j);
    }
  }

  /** One entry of the reply as a record, with `index` its position in the reply. The
      entry's fields are copied, the score is the reply's confidence, the price is "$$",
      and a draw in [0, 1] places the record within 0.01 degrees of the user. */
  function ToRecommendation(e: Entry, confidence: real, s: Sample, index: nat): (r: Recommendation)
    ensures r.name == e.name && r.address == e.address && r.venueType == e.venueType
    ensures r.vibeTags == e.vibes && r.description == Some(e.description)
    ensures r.socialSentimentScore == confidence && r.priceRange == Some(TwoSigns)
    ensures 0.0 <= s.latitudeDraw <= 1.0 ==>
      UserLocation.latitude - 0.01 <= r.latitude <= UserLocation.latitude + 0.01
    ensures 0.0 <= s.longitudeDraw <= 1.0 ==>
      UserLocation.longitude - 0.01 <= r.longitude <= UserLocation.longitude + 0.01
  {
    Recommendation(
      recommendationId := AiId(s.now, index),
      name := e.name,
      address := e.address,
      venueType := e.venueType,
      vibeTags := e.vibes,
      socialSentimentScore := confidence,
      sourceDataUrl := None,
      latitude := UserLocation.latitude + (s.latitudeDraw - 0.5) * 0.02,
      longitude := UserLocation.longitude + (s.longitudeDraw - 0.5) * 0.02,
      timestamp := s.timestamp,
      description := Some(e.description),
      priceRange := Some(TwoSigns),
      openNow := Some(s.openDraw > 0.3))
  }

  /** `response.recommendations.map(...)`: one record per entry, in reply order, copying
      the entry's fields, scored with the reply's confidence, priced "$$", with ids that
      are distinct within the batch. `samples(i)` is what the environment supplies while
      the record at index `i` is built. */
  function ToRecommendations(entries: seq<Entry>, confidence: real, samples: nat -> Sample): (r: seq<Recommendation>)
    ensures |r| == |entries|
    ensures forall i :: 0 <= i < |r| ==>
      && r[i].recommendationId == AiId(samples(i).now, i)
      && r[i].name == entries[i].name && r[i].address == entries[i].address
      && r[i].venueType == entries[i].venueType && r[i].vibeTags == entries[i].vibes
      && r[i].description == Some(entries[i].description)
      && r[i].socialSentimentScore == confidence && r[i].priceRange == Some(TwoSigns)
    ensures forall i, j :: 0 <= i < j < |r| ==> r[i].recommendationId != r[j].recommendationId
  {
    var r := seq(|entries|, i requires 0 <= i < |entries| => ToRecommendation(entries[i], confidence, samples(i), i));
    forall i, j | 0 <= i < j < |r| ensures r[i].recommendationId != r[j].recommendationId {
      AiIdInjective(samples(i).now, i, samples(j).now, j);
    }
    r
  }

  /** The conversion inside the `try` block: `None` when `response.recommendations.map`
      throws because the parsed reply has no recommendations array. */
  function ConvertResponse(response: Response, samples: nat -> Sample): (r: Option<seq<Recommendation>>)
    ensures r.None? <==> response.recommendations.None?
    ensures r.Some? ==> r.value == ToRecommendations(response.recommendations.value, response.confidence, samples)
  {
    match response.recommendations
    case None => None
    case Some(entries) => Some(ToRecommendations(entries, response.confidence, samples))
  }

  /** The records a chat message adds, or `None` when the `catch` path is taken. */
  function SendOutcome(content: string, filters: seq<VibeFilter>, completion: Completion,
                       parse: string -> Option<Response>, samples: nat -> Sample): Option<seq<Recommendation>> {
    ConvertResponse(GenerateLocalRecommendations(BuildRequest(content, filters), completion, parse), samples)
  }

  /** When the service fails or its content does not parse, the message still adds
      exactly one record, which is addressed to the fixed location and carries the
      active labels as its tags. */
  lemma FallbackAddsOneRecord(content: string, filters: seq<VibeFilter>, completion: Completion,
                              parse: string -> Option<Response>, samples: nat -> Sample)
    requires TierOf(completion, parse) != ModelTier
    ensures var added := SendOutcome(content, filters, completion, parse, samples);
      && added.Some? && |added.value| == 1
      && added.value[0].address == DefaultLocation
      && added.value[0].vibeTags == ActiveLabels(filters)
      && (InferVenueType(content).None? ==> added.value[0].venueType == DefaultVenueType)
      && (InferVenueType(content).Some? ==> added.value[0].venueType == InferVenueType(content).value)
  {
    var request := BuildRequest(content, filters);
    var response := GenerateLocalRecommendations(request, completion, parse);
    assert response == ParseFallback(request) || response == ServiceFallback(request);
  }

  /** A parsed reply without a recommendations array reaches the `catch` block. */
  lemma WrongShapeTakesCatchPath(content: string, filters: seq<VibeFilter>, text: string,
                                 confidence: real, samples: nat -> Sample)
    requires text != ""
    ensures SendOutcome(content, filters, Returned(Some(text)), _ => Some(Response(None, confidence)), samples).None?
  {
  }

  // ---------------------------------------------------------------------------
  // Chat messages

  /** What the environment supplies during one `handleSendMessage`: the clock reading and
      ISO time of the user message, those of the reply, and the per-record samples. */
  datatype SendEnv = SendEnv(
    userNow: nat, userTimestamp: string, replyNow: nat, replyTimestamp: string, samples: nat -> Sample)

  /** The user's message: stored as typed, with a decimal id read from the clock. */
  function UserMessage(content: string, env: SendEnv): (m: ChatMessage)
    ensures m.kind == User && m.content == content
    ensures m.id != [] && forall i :: 0 <= i < |m.id| ==> IsDigit(m.id[i])
  {
    ChatMessage(NatToString(env.userNow), User, content, env.userTimestamp)
  }

  /** The assistant reply, with the decimal id `Date.now() + 1`. */
  function ReplyMessage(text: string, env: SendEnv): (m: ChatMessage)
    ensures m.kind == Assistant && m.content == text
    ensures m.id != [] && forall i :: 0 <= i < |m.id| ==> IsDigit(m.id[i])
  {
    ChatMessage(NatToString(env.replyNow + 1), Assistant, text, env.replyTimestamp)
  }

  /** As long as the clock has not run backwards since the user message, the reply's
      id differs from the user message's: the `+ 1` keeps them apart even when both
      read the same millisecond. */
  lemma ReplyIdDiffersFromUserId(content: string, text: string, env: SendEnv)
    requires env.userNow <= env.replyNow
    ensures ReplyMessage(text, env).id != UserMessage(content, env).id
  {
    NatToStringInjective(env.replyNow + 1, env.userNow);
  }

  /** The fixed pieces of the reply after records were added. */
  const FoundSpots := " amazing spots for you! I've added them to your map and list. "
  const FoundClosing := " looks particularly promising based on social buzz."

  /** The reply after records were added: it starts "Found <N>", N the number of
      records. */
  function FoundText(added: seq<Recommendation>): (t: string)
    ensures |t| > 6 + |NatToString(|added|)|
    ensures t[..6] == "Found "
    ensures t[6..6 + |NatToString(|added|)|] == NatToString(|added|)
  {
    "Found " + NatToString(|added|) + FoundSpots
    + (if |added| > 0 then added[0].name else "undefined")
    + FoundClosing
  }

  /** After the count and the fixed middle piece, the reply names the first record;
      `newRecommendations[0]?.name` prints as "undefined" when the batch is empty. */
  lemma FoundTextNamesFirst(added: seq<Recommendation>)
    ensures |added| > 0 ==> var k := 6 + |NatToString(|added|)| + |FoundSpots|;
      k + |added[0].name| <= |FoundText(added)| && FoundText(added)[k..k + |added[0].name|] == added[0].name
    ensures |added| == 0 ==> var k := 6 + |NatToString(|added|)| + |FoundSpots|;
      k + 9 <= |FoundText(added)| && FoundText(added)[k..k + 9] == "undefined"
  {
  }

  const ErrorText := "I'm having trouble finding new spots right now, but check out the existing recommendations I have for you!"

  // ---------------------------------------------------------------------------
  // Application state

  class App {
    var activeTab: Tab
    var messages: seq<ChatMessage>
    var recommendations: seq<Recommendation>
    var vibeFilters: seq<VibeFilter>
    var isLoading: bool

    /** The initial state; the initial recommendations and filters are mock data that is
        given here as parameters. */
    constructor(initialRecommendations: seq<Recommendation>, initialFilters: seq<VibeFilter>)
      ensures activeTab == ChatTab && messages == [] && !isLoading
      ensures recommendations == initialRecommendations && vibeFilters == initialFilters
    {
      activeTab := ChatTab;
      messages := [];
      recommendations := initialRecommendations;
      vibeFilters := initialFilters;
      isLoading := false;
    }

    /** `handleFilterToggle`. */
    method HandleFilterToggle(id: string)
      modifies this`vibeFilters
      ensures vibeFilters == ToggleFilter(old(vibeFilters), id)
    {
      vibeFilters := ToggleFilter(vibeFilters, id);
    }

    /** `handleSendMessage` up to the awaited call: appends the user message, raises the
        loading flag and builds the request. */
    method BeginSend(content: string, env: SendEnv) returns (request: Request)
      modifies this`messages, this`isLoading
      ensures messages == old(messages) + [UserMessage(content, env)]
      ensures isLoading
      ensures request == BuildRequest(content, vibeFilters)
    {
      messages := messages + [UserMessage(content, env)];
      isLoading := true;
      request := BuildRequest(content, vibeFilters);
    }

    /** `handleSendMessage` after the awaited call. On success the new records are
        prepended, a reply counting them is appended and the map tab opens; when the
        conversion throws, only an error reply is appended. The loading flag is lowered
        on both paths. */
    method CompleteSend(response: Response, env: SendEnv)
      modifies this`messages, this`recommendations, this`activeTab, this`isLoading
      ensures !isLoading
      ensures var added := ConvertResponse(response, env.samples);
        && (added.Some? ==>
              && recommendations == added.value + old(recommendations)
              && messages == old(messages) + [ReplyMessage(FoundText(added.value), env)]
              && activeTab == MapTab)
        && (added.None? ==>
              && recommendations == old(recommendations)
              && messages == old(messages) + [ReplyMessage(ErrorText, env)]
              && activeTab == old(activeTab))
    {
      var added := ConvertResponse(response, env.samples);
      if added.Some? {
        recommendations := added.value + recommendations;
        messages := messages + [ReplyMessage(FoundText(added.value), env)];
        activeTab := MapTab;
      } else {
        // the `catch` block
        messages := messages + [ReplyMessage(ErrorText, env)];
      }
      isLoading := false;  // the `finally` block
    }

    /** `handleSendMessage`, with the completion call's outcome and the parser given. */
    method HandleSendMessage(content: string, env: SendEnv, completion: Completion,
                             parse: string -> Option<Response>)
      modifies this`messages, this`recommendations, this`activeTab, this`isLoading
      ensures !isLoading && vibeFilters == old(vibeFilters)
      ensures var added := SendOutcome(content, old(vibeFilters), completion, parse, env.samples);
        && (added.Some? ==>
              && recommendations == added.value + old(recommendations)
              && messages == old(messages) + [UserMessage(content, env)] + [ReplyMessage(FoundText(added.value), env)]
              && activeTab == MapTab)
        && (added.None? ==>
              && recommendations == old(recommendations)
              && messages == old(messages) + [UserMessage(content, env)] + [ReplyMessage(ErrorText, env)]
              && activeTab == old(activeTab))
    {
      var request := BeginSend(content, env);
      var response := GenerateLocalRecommendations(request, completion, parse);
      assert SendOutcome(content, old(vibeFilters), completion, parse, env.samples)
          == ConvertResponse(response, env.samples);
      CompleteSend(response, env);
    }
  }

  /** Sending from the chat and then submitting again before the reply arrives: the
      second submit is refused because the loading flag is up, and the quick prompts,
      which skip that check, are not on screen because the chat is no longer empty. */
  method SubmitWhileAwaiting(app: App, chat: AgentChat.ChatInput, content: string, env: SendEnv)
    returns (sent: Option<string>)
    modifies app, chat
    ensures sent.None? && chat.inputValue == old(chat.inputValue)
    ensures !AgentChat.QuickPromptsShown(app.messages, AgentChat.WithTools)
  {
    var _ := app.BeginSend(content, env);
    sent := chat.HandleSubmit(app.isLoading);
  }
}
