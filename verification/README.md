# Alexa YouTube player skill — Dafny model

This project models the logic of an Alexa skill backend that plays the audio
of a YouTube video. The skill receives an intent request. For a search intent
it does four things in order:

1. It asks the YouTube search API for up to three video ids.
2. It resolves the first id to the video's title and its list of stream formats.
3. It picks the best audio-only M4A/AAC format.
4. It answers with speech and an `AudioPlayer.Play` directive.

Other intents get fixed replies. Pause and cancel also get an
`AudioPlayer.ClearQueue` directive. Each reply is an *options* record with
`text`, `audio_url`, `end_session` and `pause`. `generate_alexa_response`
turns that record into the Alexa response object.

The two network calls are inputs to the model. The search call becomes a
`SearchOutcome` value: transport error flag, coerced status code and the
body's `items`. The resolver (`ytdl.getInfo`) becomes a function from video id
to `ResolveOutcome`. With that, every stage is a pure function. The
"never consulted" guarantees become independence lemmas: two resolvers give
the same reply whenever they agree on the one id that is looked at.

Modules:

- `Js`: optional values, a stage result type, the 32-bit range of `~~x`, and string truthiness.
- `Formats`: `find_best_format` as a fold, and its characterisation as "the first entry with the highest bitrate".
- `SearchIds`: the id extraction `items.map(...).filter(x => x)`.
- `AlexaResponse`: the options record and `generate_alexa_response`.
- `Pipeline`: the three-stage `search` waterfall and how its tagged outcome maps to options.
- `Handler`: the intent dispatch of `exports.handler`.
- `Scenarios`: concrete end-to-end scenarios.

One plausible reading of the selection policy is that a qualifying M4A/AAC
stream with a missing or malformed bitrate counts as 0 and can still be
chosen when it is the only one. The model follows the code instead. In the
code the reducer starts from `null`, and `~~undefined` is 0. The test
`~~format.audioBitrate <= ~~((current_best || {}).audioBitrate)` therefore
skips such a stream. A stream whose coerced bitrate is 0 or less is never
chosen. `Formats.Selectable` encodes this, and
`Scenarios.MissingBitrateIsNeverChosen` exhibits it.

## Model

| member | source | states |
|---|---|---|
| `Formats.FindBestFormat` | index.js:61-85 | The fold of the reducer `Formats.Consider` (index.js:63-82) from `null`. The result is null exactly when no entry is audio-only with container "m4a", encoding "aac" and coerced bitrate above 0. A non-null result is one of the list's entries (with `null` read as `{}`) and meets all four conditions. |
| `Formats.FindBestFormatIsFirstBest` | index.js:77-81 | The fold returns a format iff some entry is the first best one. The first best entry is selectable, no selectable entry has a higher bitrate, and every earlier selectable entry has a strictly lower one. When a first best entry exists, the result is that entry, so ties go to the earliest. |
| `Formats.FirstBestIndex` | index.js:62-84 | For a non-empty list it yields the index the fold ends on: the first best entry when the fold returns a format, and -1 when it returns null. |
| `Formats.FirstBestUnique` | index.js:77-79 | At most one index is the first best one, so the policy names a single entry. |
| `SearchIds.KeepTruthy` | index.js:109 | The filter keeps only non-empty strings. A string is kept iff it occurs as a present, non-empty value. The result is no longer than the input. |
| `SearchIds.ExtractIds` | index.js:109 | Missing `items` gives no ids, not an error. Every id is non-empty. A string is an id iff some item carries it as its truthy `id.videoId`. |
| `SearchIds.KeepTruthyAppend` | index.js:109 | Filtering a concatenation is the concatenation of the filtered parts. |
| `SearchIds.ExtractIdsAppend` | index.js:109 | Extracting from concatenated item lists concatenates the extractions, so ids keep the items' order. |
| `SearchIds.ExtractIdsSingle` | index.js:109 | Stated over the item's shape: a null item, an item without `id`, and an `id` without `videoId` each yield no id. An `id` with `videoId` v yields `[v]` when v is non-empty and nothing when it is empty. |
| `AlexaResponse.Generate` | index.js:12-58 | The version is always "1.0". A PlainText `outputSpeech` with the text is present iff `text` is truthy. `shouldEndSession` is present, and true, iff `end_session` is set. The directives are a Play entry with `token == url == audio_url` iff `audio_url` is truthy, then a ClearQueue entry iff `pause` is set, and nothing else. |
| `AlexaResponse.GenerateReadBack` | index.js:12-58 | Reading the options back from a response gives the input minus its falsy strings. Two options records give equal responses iff they agree once falsy strings are dropped. |
| `Pipeline.SearchStage` | index.js:99-119 | A transport error or a status other than 200 gives the "searching YouTube failed" failure. A search with no usable id gives the no-results failure. Otherwise the stage passes on the extracted ids, which are non-empty. |
| `Pipeline.Fulfil` | index.js:97-143 | The chain of `SearchStage`, `ResolveStage` (index.js:120-122: resolve `ids[0]`, an error becomes `ResolverError`) and `SelectStage` (index.js:123-131: no chosen format becomes `NoCompatibleAudio`, otherwise its url), each run only after the previous one succeeded. A rejected search fails with SearchFailed. No ids fails with NoResults. A resolver failure is the resolver's own error for the first id. A playing outcome means: the search was accepted, the first id resolved, the title is the resolved title, and the url is that of the selectable format the fold chose. |
| `Pipeline.ToOptions` | index.js:104-141 | Search, no-results and no-compatible-audio failures end the session and carry no audio. A resolver error becomes the reply unchanged. Success says "Playing " + title, plays the chosen url and leaves the session open. |
| `Pipeline.Search` | index.js:87-144 | `search` itself, defined as `ToOptions(Fulfil(..))`. A rejected search replies with the search-failed message and ends the session. A search without ids replies with the no-results message and ends the session. A reply that pauses, or that carries audio and ends the session, can only be a resolver error for the first id passed through. |
| `Pipeline.SearchFailureShortCircuits` | index.js:104-107 | After a transport error or a non-200 status the reply is the fixed "searching YouTube failed" message with `end_session`. The reply is the same for every resolver, so the resolver is never consulted. |
| `Pipeline.NoResultsShortCircuits` | index.js:109-112 | When no usable id is found the reply is the "didn't find any results" message with `end_session`, whatever the resolver. |
| `Pipeline.OnlyFirstIdResolved` | index.js:120-122 | Two resolvers that agree on `search_results[0]` give the same reply, so only the first id is resolved. |
| `Pipeline.ResolverErrorPassesThrough` | index.js:133-137 | A resolver error is the reply, unchanged. |
| `Pipeline.ResolvedOutcome` | index.js:123-141 | Once the first id resolves, the reply is the "compatible audio file" message with `end_session` iff no format is selectable. Otherwise it says "Playing " + title and plays the url of the first best format. |
| `Handler.Decide` | index.js:169-188 | Only a non-launch `SearchIntent` with truthy search terms runs the search. A LaunchRequest gets the greeting whatever the intent. A `SearchIntent` with falsy terms gets the "couldn't understand" reply with `end_session`. `AMAZON.ResumeIntent` gets "Hold on, not implemented yet" with `end_session`. No immediate reply carries audio. Only pause or cancel pauses, and it also ends the session. Only the launch greeting and the listed unimplemented intents leave the session open. |
| `Handler.Handle` | index.js:157-167 | Every response the handler sends has version "1.0". |
| `Handler.OnlySearchIntentSearches` | index.js:170-187 | Any request that is not a non-launch `SearchIntent` with truthy terms gets the same response whatever the network outcomes. |
| `Handler.LaunchFirst` | index.js:170-171 | A LaunchRequest is answered with the greeting, with no end of session and no directives, before the intent name is looked at. |
| `Handler.PauseClearsQueue` | index.js:179-180 | Pause and cancel answer "Okay", end the session and send exactly one ClearQueue directive. |
| `Handler.MissingTermsNotUnderstood` | index.js:172-176 | A non-launch `SearchIntent` with falsy search terms gets the response "Sorry, I couldn't understand what you said. Please ask again." with `shouldEndSession` and no directives. |
| `Handler.ResumeNotImplemented` | index.js:181-183 | `AMAZON.ResumeIntent` gets the response "Hold on, not implemented yet" with `shouldEndSession` and no directives. |
| `Handler.UnknownIntents` | index.js:184-187 | Intents in `unimplemented_intents` get the "hasn't been implemented" speech without ending the session. Any other unhandled intent gets only `shouldEndSession`. |
| `Handler.SearchPlaysChosenFormat` | index.js:133-141 | A search that plays a truthy url sends exactly one Play directive for that url. A search that ends in the pipeline's own failure sends no directive and ends the session. |
| `Scenarios.FirstIdOfHits` | index.js:109 | Three well-formed items give their three ids in order. |
| `Scenarios.LofiChoosesAac` | index.js:61-85 | From a video stream and a 128 kbit/s M4A/AAC stream, the AAC stream is chosen. |
| `Scenarios.PlaysFirstHit` | index.js:97-143 | A search with three hits, whose first resolves to "Lofi Mix" with those two streams, replies "Playing Lofi Mix" with url "u1". |
| `Scenarios.ServerErrorFails` | index.js:104-106 | An HTTP 500 replies with the search-failed message and ends the session. |
| `Scenarios.EmptySearchFails` | index.js:109-111 | Zero items reply with the no-results message and end the session. |
| `Scenarios.VideoOnlyFormatsFail` | index.js:123-126 | When every format carries video, the reply is the no-compatible-audio message and ends the session. |
| `Scenarios.MissingBitrateIsNeverChosen` | index.js:77 | A lone M4A/AAC stream with coerced bitrate 0 is not chosen: the result is null. |

## Left out

- The HTTP request through `needle`, the query string built with `querystring`, and the `YOUTUBE_API_KEY` environment read. These are network and environment access. The model starts from their outcome, `Pipeline.SearchOutcome`.
- The query that is sent. The handler passes the intent object rather than the search terms to `search` (index.js:178). This only changes the query, which is not modelled.
- `ytdl.getInfo`, a foreign library and network call. It is the `Pipeline.Resolver` parameter. Its error object is represented by the options it reads as, because it becomes the reply unchanged.
- `async.waterfall` callback mechanics. The stages are chained as sequential results that stop at the first failure.
- The exact semantics of `~~x` (ToInt32 truncation and wrap-around). `audioBitrate` and `statusCode` are taken as already coerced values in the 32-bit range.
- Non-string JavaScript values for `text`, `audio_url`, `videoId`, `url`, the video `title` and the search terms. These are strings or missing, and truthy means present and non-empty. The title is always a string, so a missing title, which the source speaks as "Playing undefined", is not modelled.
- A missing search response body when the status is 200. The source would throw on `body.items`, and the model assumes a body object is present.
- A resolver success whose info object is missing, which would also throw in the source.
- The handler callback's error branch (index.js:161-163). No caller ever passes an error.
- `console.log` diagnostics.
- The directive `type` strings ("AudioPlayer.Play", "AudioPlayer.ClearQueue"). The `Directive` constructors stand for them, and the `response` sub-object is flattened into `Response`.
- Speaking the video's duration, which is a TODO in the source.
