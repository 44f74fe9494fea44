# LocalVibe AI recommendation pipeline in Dafny

LocalVibe AI is a single-page app. The user chats with an AI assistant to find local
restaurants, bars, cafes and events. This project models the app's recommendation
pipeline and proves properties about it:

- **Completion client** (`OpenAI`, app/lib/openai.ts). `generateLocalRecommendations`
  asks a chat-completion service for recommendations. It never fails.
  - When the content parses, it returns the parsed value unchanged.
  - When the content does not parse, it returns a one-record *parse fallback*
    (confidence 0.7).
  - When the call throws or returns no content, it returns a one-record *service
    fallback* (confidence 0.5).
  - Both fallbacks fill their fields from the request with JavaScript `||`. An empty
    string counts as missing. An empty array does not.
- **Page state** (`Page`, app/page.tsx).
  - The request builder: the fixed location, the lower-cased labels of the active
    filters, and a venue type inferred by substring search in the priority order
    restaurant, bar, cafe.
  - The filter toggle.
  - The loose, two-way, case-insensitive filter over vibe tags.
  - Turning a reply into `Recommendation` records.
  - The class `App`, whose methods make the state changes of `handleSendMessage`:
    messages, recommendations, the loading flag and the active tab.
- **Chat panel** (`AgentChat`, app/components/AgentChat.tsx). The class `ChatInput`
  holds the input text. Its submit guard sends the trimmed text only when it is
  non-empty and nothing is loading, and then clears the input. The submit button is
  disabled exactly when that guard refuses. Quick prompts bypass the loading check.
- **Helper modules.** `Strings` models the JavaScript primitives the app uses, over
  ASCII: `toLowerCase`, `includes`, `trim`, and decimal `toString`. `Lists` models
  `filter` and `some`. `Types` holds the records from app/types/index.ts.

Things outside the model are inputs to it:

- The network call is a `Completion`. It either threw or returned optional content.
- `JSON.parse` is an oracle `string -> Option<Response>`.
- `Date.now()`, `new Date().toISOString()` and `Math.random()` are parameters. These
  are `SendEnv`, plus one `Sample` per record built.

`handleSendMessage` is split at its `await` into two methods:

- `BeginSend` appends the user message, raises the loading flag and builds the request.
- `CompleteSend` handles the `try`/`catch`/`finally`.

`HandleSendMessage` runs the two in sequence. `SubmitWhileAwaiting` shows the state
between them: a second submit is refused, and the quick prompts are hidden.

Some field names change because the originals are Dafny keywords:

- `type` becomes `venueType` (on records and requests) or `kind` (on chat messages).
- A filter's `label` becomes `caption`.

Filtering is loose containment, not word matching. A tag spelled with a hyphen does
not match a label spelled with a space: a recommendation tagged
`["cozy", "live-music"]` is hidden under an active "Live Music" filter
(`HyphenatedTagHiddenUnderSpacedLabel`).

## Model

| member | source | states |
|---|---|---|
| `Strings.ToLower` | app/page.tsx:73 | lower-casing keeps the length and maps each character through ASCII lower-casing |
| `Strings.Includes` | app/page.tsx:139-140 | every string includes the empty string; a string never includes a longer one, and includes one of the same length only when they are equal |
| `Strings.IncludesIffOccurs` | app/page.tsx:139-140 | the left-to-right `includes` scan is true exactly when the substring occurs at some index |
| `Strings.OccursShift` | app/page.tsx:139-140 | dropping the first character moves each later occurrence one place left |
| `Strings.IncludesCharacters` | app/page.tsx:139-140 | every character of an included string occurs in the including one |
| `Strings.Trim` | app/components/AgentChat.tsx:31 | the trimmed input is a contiguous piece of the input with only white space before and after it; it is empty exactly when the input is all white space, and otherwise neither starts nor ends with white space |
| `Strings.TrimIdempotent` | app/components/AgentChat.tsx:32 | trimming the sent text again changes nothing |
| `Strings.NatToString` | app/page.tsx:83 | the decimal form of a clock reading or index is non-empty and made of digits only |
| `Strings.NatToStringInjective` | app/page.tsx:83 | different numbers print differently |
| `Strings.SplitAtSeparator` | app/page.tsx:83 | a dash that is in neither prefix splits `x-y` uniquely |
| `Lists.Filter` | app/page.tsx:133-143 | `filter` keeps order (subsequence), keeps only elements that pass, and keeps every passing element as many times as it occurs (multiset) |
| `Lists.FilterAll` | app/page.tsx:134-135 | filtering with a test every element passes returns the list unchanged |
| `Lists.Any` | app/page.tsx:137-142 | `some` is true exactly when some element satisfies the test |
| `OpenAI.HasContent` | app/lib/openai.ts:62-65 | the content check fails for exactly three outcomes: a thrown call, missing content and "" |
| `OpenAI.TierOf` | app/lib/openai.ts:62-70 | the service fallback answers exactly those three outcomes; otherwise the model answers when the content parses and the parse fallback when it does not |
| `OpenAI.OrString` | app/lib/openai.ts:75-76 | JavaScript or-defaulting on an optional string: undefined and "" take the default, otherwise the value |
| `OpenAI.OrList` | app/lib/openai.ts:78 | JavaScript or-defaulting on an optional array: only undefined takes the default; an empty array is kept |
| `OpenAI.ParseFallback` | app/lib/openai.ts:69-83 | exactly one record "AI-Generated Recommendation", confidence 0.7; address is location or "Near you", type is type or "restaurant", vibes are vibes or ["trending","popular"] |
| `OpenAI.ServiceFallback` | app/lib/openai.ts:85-101 | exactly one record "Local Favorite", confidence 0.5, reasoning "Fallback recommendation due to API limitations"; address is location or "Downtown", type is type or "restaurant", vibes are vibes or ["trending"] |
| `OpenAI.GenerateLocalRecommendations` | app/lib/openai.ts:29-103 | total; parsed content is returned unchanged; unparsable content gives the parse fallback; a failed call or missing/empty content gives the service fallback |
| `OpenAI.MissingContentIsServiceFailure` | app/lib/openai.ts:62-65 | a thrown call, absent content and "" content all give the service fallback, never the parse fallback |
| `OpenAI.FallbacksAreNonEmpty` | app/lib/openai.ts:67-101 | whenever the parsed value is not returned, the reply has exactly one record and confidence 0.7 or 0.5 |
| `OpenAI.ConfidenceNotClamped` | app/lib/openai.ts:67-68 | the confidence of a parsed reply comes back unchanged, whatever its value |
| `OpenAI.TierNotRecoverableFromReply` | app/lib/openai.ts:29-103 | a successful model reply can equal the service fallback, so the reply does not reveal which tier produced it |
| `Page.ActiveLabels` | app/page.tsx:73 | the request vibes are the lower-cased labels of exactly the active filters, in filter order, each active filter counted as often as it occurs |
| `Page.InferVenueType` | app/page.tsx:74-76 | "restaurant" if the lower-cased text contains it, else "bar" if it contains that, else "cafe" if it contains that, else undefined |
| `Page.InferVenueTypeIgnoresCase` | app/page.tsx:74-76 | a message and its lower-cased form get the same type |
| `Page.BuildRequest` | app/page.tsx:71-77 | the location is always "New York City", the vibes are the active labels, the type is the inferred one, and there is no budget |
| `Page.RequestVibesAreActiveLabels` | app/page.tsx:73 | every request vibe is the lower-cased label of an active filter, and every active filter's lower-cased label is in the request |
| `Page.SubsequenceMember` | app/page.tsx:73 | each element of a filtered list is an element of the original |
| `Page.BuildRequestExample` | app/page.tsx:71-77 | "Find trending restaurants nearby" with "Live Music" active yields New York City, ["live music"], "restaurant" |
| `Page.SubstringOutranksWord` | app/page.tsx:74-76 | "Find a cafe with great baristas" is classified "bar": substring search, and bar outranks cafe |
| `Page.ToggleFilter` | app/page.tsx:125-131 | same length and order; filters with the id have `active` flipped and all other fields kept; all other filters unchanged |
| `Page.ToggleTwiceRestores` | app/page.tsx:125-131 | toggling the same id twice restores the filter list |
| `Page.TagMatches` | app/page.tsx:139-140 | a tag and a label match exactly when one, lower-cased, occurs at some position of the other; of the same length, only when equal up to letter case |
| `Page.Visible` | app/page.tsx:135-142 | visible exactly when no filter is active, or some active filter and some tag match |
| `Page.HyphenatedTagHiddenUnderSpacedLabel` | app/page.tsx:137-142 | tags ["cozy","live-music"] are hidden under an active "Live Music" filter |
| `Page.TagContainedInLabelIsVisible` | app/page.tsx:137-142 | a "jazz" tag is visible under "Jazz & Blues" (the tag is contained in the label) |
| `Page.EmptyTagPassesEveryFilter` | app/page.tsx:138-140 | a recommendation with an empty tag passes any non-empty set of active filters |
| `Page.FilterRecommendations` | app/page.tsx:133-143 | with no active filter every recommendation is shown; otherwise an order-preserving subsequence of exactly the visible recommendations, each kept as often as it occurs |
| `Page.AiIdInjective` | app/page.tsx:83 | `ai-<now>-<index>` ids built from different indices differ, whatever the clock readings |
| `Page.ToRecommendation` | app/page.tsx:83-94 | an entry becomes a record with its name, address, type, vibes and description, the reply's confidence as score, price "$$", and, for draws in [0, 1], a position within 0.01 degrees of the user |
| `Page.ToRecommendations` | app/page.tsx:82-95 | one record per entry in reply order, copying name, address, type, vibes and description, scored with the reply's confidence, priced "$$", with ids distinct within the batch |
| `Page.ConvertResponse` | app/page.tsx:82-95 | the conversion throws exactly when the parsed reply has no recommendations array |
| `Page.FallbackAddsOneRecord` | app/page.tsx:71-97 | when the service fails or the content does not parse, exactly one record is added, addressed "New York City", tagged with the active labels, typed by inference or "restaurant" |
| `Page.WrongShapeTakesCatchPath` | app/page.tsx:82-119 | parsed content with no recommendations array makes the page take its error path |
| `Page.UserMessage` | app/page.tsx:59-64 | the user message keeps the content as given, is tagged as a user message, and has a decimal id |
| `Page.ReplyMessage` | app/page.tsx:99-104 | the reply is tagged as an assistant message with the given text and a decimal id |
| `Page.ReplyIdDiffersFromUserId` | app/page.tsx:100 | if the clock has not run backwards, the reply id `Date.now() + 1` differs from the user message id, even within the same millisecond |
| `Page.FoundText` | app/page.tsx:102 | the reply text starts "Found <N>" with N the number of records added |
| `Page.FoundTextNamesFirst` | app/page.tsx:102 | after the fixed middle piece the reply names the first record, or prints "undefined" for an empty batch |
| `Page.App.constructor` | app/page.tsx:36-40 | the initial state: chat tab, no messages, not loading, the given recommendations and filters |
| `Page.App.HandleFilterToggle` | app/page.tsx:125-131 | the filters become the toggled list |
| `Page.App.BeginSend` | app/page.tsx:58-77 | the user message is appended, loading is raised, and the request is built from the current filters |
| `Page.App.CompleteSend` | app/page.tsx:79-122 | on success: new records prepended, a "Found N" reply appended, map tab; on a throwing conversion: recommendations and tab unchanged, one error reply appended; loading lowered on both |
| `Page.App.HandleSendMessage` | app/page.tsx:58-123 | the whole send: user message then exactly one assistant reply; recommendations become new ++ old or stay unchanged; filters untouched; loading false at the end |
| `Page.SubmitWhileAwaiting` | app/components/AgentChat.tsx:29-35 | while a reply is awaited a submit sends nothing and keeps the input, and the quick prompts are not shown |
| `AgentChat.Accepts` | app/components/AgentChat.tsx:31 | a submit is accepted exactly when nothing is loading and the input has a character that is not white space |
| `AgentChat.QuickPromptsShown` | app/components/AgentChat.tsx:55-62 | quick prompts are shown exactly when the chat is empty and the variant is the full one |
| `AgentChat.SubmitDisabled` | app/components/AgentChat.tsx:126 | the button is disabled exactly when the submit guard would refuse; with nothing loading, exactly when the input is blank |
| `AgentChat.ChatInput.constructor` | app/components/AgentChat.tsx:17 | the input starts empty |
| `AgentChat.ChatInput.Change` | app/components/AgentChat.tsx:119 | typing replaces the input text |
| `AgentChat.ChatInput.HandleSubmit` | app/components/AgentChat.tsx:29-35 | sends only when the trimmed input is non-empty and nothing loads; sends the trimmed text and clears the input; otherwise sends nothing and keeps the input |
| `AgentChat.ChatInput.ClickQuickPrompt` | app/components/AgentChat.tsx:37-67 | a quick prompt sends its fixed text whatever the loading flag; every prompt text would pass the submit guard |

## Left out

- The OpenAI/OpenRouter client construction, the API key, the prompt, the model name, the temperature and the token limit. They configure a library call that is not visible; the call is modelled only by its outcome.
- `console.error` logging on both error paths. It has no effect on state.
- Real JSON parsing. `JSON.parse` is an oracle. A parsed reply whose `recommendations` is not an array is modelled (the page's `catch` path). The model assumes that entries are objects with string fields and that `confidence` is a number. An entry that is `null`, which would make `rec.name` throw, is not modelled.
- Floating point. `confidence`, `socialSentimentScore` and coordinates are `real`. Coordinate jitter is exact real arithmetic on the random draws.
- The ranges of the random draws. `openNow` and coordinates are computed from the given draws, but the draws are not constrained to [0, 1).
- Clock and time values are parameters. Two messages may get the same `Date.now()` id, and the model does not claim otherwise.
- React's asynchronous state scheduling and overlapping `handleSendMessage` calls. Each call is one sequential transition, split only at its `await`.
- The `disabled={isLoading}` attribute on the text field (app/components/AgentChat.tsx:122). `Change` is modelled as always allowed.
- Unicode case folding and non-ASCII white space in `toLowerCase` and `trim`. Only ASCII is modelled.
- The mock initial data. app/lib/mockData is not part of this model; the initial recommendations and filters are constructor parameters.
- The `toolCalls` field of `ChatMessage`, and the `User` and `Query` records. The pipeline never sets or reads them.
- Tab switching by the navigation buttons, `selectedLocation`, frame and wallet integration, URL opening, scrolling, the map projection, the star rating and all rendering (app/layout.tsx, app/components/AppShell.tsx, FilterChips.tsx, LocationCard.tsx, Map.tsx, tailwind.config.js). These are presentation or host-platform plumbing.
