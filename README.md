# YouTube consulting assistant: a verified model of its core

This project models the logic of a browser application that helps video creators. Every network
and AI call is a parameter.

The modelled logic includes:

- a data client that extracts video ids from links and maps the video platform's API replies to
  video and channel records;
- a generative-AI service layer that chooses response schemas, assembles prompts and falls back to
  English prompt tables for unknown languages;
- a language provider that walks a dotted key through nested translation tables, falls back from
  the current language to English to the key, and fills `{name}` placeholders;
- a settings provider that derives the API keys and counts quota;
- four interactive components:
  - the one-million consultant: its analysis run, its result-display choice, the storyboard loop and
    the thumbnail generator;
  - the chat consultant;
  - the channel analyzer;
  - the keyword analyzer.

## Modules

- `Wrappers`: `Option` and `Result`.
- `Strings`: the JavaScript string operations the code relies on: `includes`, `indexOf`, `split`,
  `join`, `replace` in its first-occurrence and global forms, `trim`, `toLowerCase`, `slice`, and
  `+=` accumulation. It also holds the lemmas about them.
- `Types`: the records of `types.ts`. The consulting result is a tagged union:
  `Proposal | Comparative`.
- `YouTubeData`: `services/youtubeDataService.ts`. The HTTP endpoints are an `Api` record. It holds
  one reply function per endpoint, and each function gives an error reply, an OK reply whose
  `items` may be absent, or a thrown network error.
- `Gemini`: `wepappchat/services/geminiService.ts`. It holds the schemas, the prompt tables as
  parameters (`PromptSet`), and the requests sent to the models. The models are an `AiModel`
  record of request-to-answer functions.
- `Settings`: `contexts/SettingsContext.tsx`, as the class `SettingsProvider`. This is an
  assumption for the channel analyzer. Its imports at wepappchat/components/ChannelAnalyzer.tsx:3-8
  resolve to wepappchat/services/youtubeDataService and wepappchat/contexts/SettingsContext.tsx.
  That second context provides only `youtubeApiKey` and `geminiApiKey`, so read literally, `apiKey`
  at line 55 would be undefined and `incrementQuotaUsage` would not exist. The model instead uses
  the provider that App.tsx:7 mounts, the root `contexts/SettingsContext.tsx`, and the root
  `services/youtubeDataService.ts`.
- `Language`: `contexts/LanguageContext.tsx`, as the class `LanguageProvider`. The translation
  table is a tree (`TNode`).
- `OneMillionConsultantComponent`, `ChatConsultantComponent`, `ChannelAnalyzerComponent` and
  `KeywordAnalyzerComponent`: the components.

**Components as classes.** Each component is a class whose fields are its state hooks, and each
handler is a method.

**How handlers are specified.** A handler's contract ties the new state to a pure specification
function of the old state and the injected services. `RunAnalyze`, `RunChannel`, `Filled`,
`FirstFailure`, `Shown` and `FinalAnswer` are such functions, and the lemmas state the promised
properties about them.

**Ghost traces.** Ghost `trace` and `calls` fields record the requests in order. This makes
statements such as "no fetch before validation" and "quota is charged after the fetch" expressible.

**Injected services.** Each component receives its service calls as function values (`Env`,
`ChannelEnv`, `ImageGenerator`, `ScenePrompter`, `IdeaGenerator`, `Chatter`, `Translator`). A
wiring function (`Wire`, `WireChannel`, `ThumbnailImages`, `StoryboardPrompts`, `IdeasIn`,
`ChatIn`, `TranslatorFor`) states pointwise that the injected function is the real data-client or
AI-service function.

## Model

| member | source | states |
|---|---|---|
| Strings.IndexOf | components/OneMillionConsultant.tsx:353-362 | `indexOf`: absent exactly when the string does not contain the pattern; otherwise the first occurrence, with no occurrence before it |
| Strings.SplitJoin | contexts/LanguageContext.tsx:39 | joining the pieces of `split(sep)` with `sep` gives back the original string |
| Strings.SplitPartsFree | contexts/LanguageContext.tsx:39 | no piece of a split contains the separator |
| Strings.SplitHead | services/youtubeDataService.ts:10 | the first piece of a split is the prefix before the first separator (the whole string when there is none) |
| Strings.JoinSplitChar | wepappchat/services/geminiService.ts:423 | splitting on a one-character separator undoes joining with it when no piece holds the character |
| Strings.ReplaceFirstSplit | wepappchat/services/geminiService.ts:407 | a first-occurrence replace puts the value between the text before the first occurrence and the rest, which keeps any later occurrences |
| Strings.ReplaceAll | contexts/LanguageContext.tsx:54 | a global replace equals splitting on the pattern and joining with the value |
| Strings.ReplaceAllIdentity | contexts/LanguageContext.tsx:54 | replacing a pattern by itself changes nothing |
| Strings.BlankIffAllWhitespace | components/OneMillionConsultant.tsx:307 | `!s.trim()` holds exactly when every character is ECMAScript white space |
| Strings.ConcatIsJoin | wepappchat/components/ChatConsultant.tsx:67-70 | accumulating chunks with `+=` equals joining them with the empty separator |
| Strings.ConcatStep | wepappchat/components/ChatConsultant.tsx:70 | the running concatenation grows by exactly the next chunk |
| Strings.Take | wepappchat/services/geminiService.ts:301-302 | `slice(0, n)`: the first `n` elements, or all of them when there are fewer |
| YouTubeData.GetVideoIdFromUrl | services/youtubeDataService.ts:5-6 | the empty input gives null |
| YouTubeData.ShortLinkId | services/youtubeDataService.ts:9-10 | for a short link, the id is the text after the first `youtu.be/`, cut at the first `?`, `&` or next `youtu.be/`; it holds no `?` and no `&`, and it is never null (it may be empty) |
| YouTubeData.FullLinkId | services/youtubeDataService.ts:11-17 | for a full link, the id is the `v` parameter of the parsed query; a URL that fails to parse, or has no `v`, yields no id |
| YouTubeData.BareIdIsItsOwnId | services/youtubeDataService.ts:19-24 | every 11-character string of letters, digits, `_` and `-` maps to itself |
| YouTubeData.HostIsNotBareId | services/youtubeDataService.ts:9-21 | an input that contains either host has a `.` and so never matches the bare-id pattern |
| YouTubeData.NullExactly | services/youtubeDataService.ts:6-25 | null exactly for the empty input, or when the URL branches find nothing and the input is not a bare id; an empty id from a short link is kept |
| YouTubeData.FirstValue | services/youtubeDataService.ts:12-13 | the `v` lookup finds nothing exactly when no non-empty query pair has that name |
| YouTubeData.QueryRoundTrip | services/youtubeDataService.ts:12-13 | the query `?v=<id>` yields `<id>` when the id holds no `&` |
| YouTubeData.ToVideoDetails | services/youtubeDataService.ts:40-53 | the video record copies the snippet and statistics fields; tags default to none; the high thumbnail is preferred over the default one when its URL is non-empty |
| YouTubeData.FetchVideoDetailsOutcomes | services/youtubeDataService.ts:29-54 | an error reply gives a "Failed to fetch" message; no items gives "not found"; a thrown error passes through; success exactly with items, and then the result is the first item mapped |
| YouTubeData.FindBenchmarkVideoOutcomes | services/youtubeDataService.ts:56-71 | a failed search gives "Failed to search"; an empty search gives "No videos found"; otherwise the result is the details fetch of the first hit's video id |
| YouTubeData.ToVideoInfos | services/youtubeDataService.ts:118-121 | the channel's videos keep the order and length of the search items, each mapped to its video id and title |
| YouTubeData.FetchChannelDataOutcomes | services/youtubeDataService.ts:73-122 | an empty channel search gives "not found"; a success needs all three requests to succeed and carries the first hit's channel id, the statistics item's title, description, default thumbnail and statistics, and every video's id and title in order |
| Gemini.OneMillionSchemaShape | wepappchat/services/geminiService.ts:143-159 | the analysis schema always requires both parts; its consulting result is the comparative schema exactly when the flag is set, and the proposal schema exactly when it is not |
| Gemini.ResultKeysMatchSchema | wepappchat/services/geminiService.ts:69-140 | a decoded result's keys are its schema's properties, so it holds `userVideo` exactly when it is the comparative result |
| Gemini.FirstProperty | wepappchat/services/geminiService.ts:143-159 | a schema property lookup is absent exactly when no property has that name, and otherwise returns a property of that name |
| Gemini.UnknownLanguageIsEnglish | wepappchat/services/geminiService.ts:305-308 | a language without its own entry reads the English prompt set (as at lines 308, 334 and 357) and the English common prompts (as at lines 406, 426 and 451) |
| Gemini.KnownLanguageIsOwn | wepappchat/services/geminiService.ts:404-406 | a known language reads its own common prompt, falling back to English only when that prompt is empty |
| Gemini.VideoBlockTruncation | wepappchat/services/geminiService.ts:296-303 | the video block depends only on the title, the counts, the first 300 description characters and the first 10 tags; shorter descriptions and tag lists appear whole |
| Gemini.ConsultingPromptModes | wepappchat/services/geminiService.ts:310-317 | both prompts start with the base, request and benchmark block; the comparative one continues with the user block and the three-step task, and the new-video one continues with the two-step task |
| Gemini.ConsultingRequestMode | wepappchat/services/geminiService.ts:305-326 | the request is comparative exactly when a user video is supplied, and the same flag selects the schema; an unknown language builds the English request |
| Gemini.ConsultingResultShape | wepappchat/services/geminiService.ts:319-329 | a model that honours the schema answers with a comparison exactly when a user video was sent |
| Gemini.BulletBlockLines | wepappchat/services/geminiService.ts:367 | when no main point holds a newline, the bullet block splits back into exactly one line per main point, in order, and each line without its `  - ` marker is that point |
| Gemini.OutlineBodyHoldsBullets | wepappchat/services/geminiService.ts:358-370 | the outline part of the full-script and storyboard prompts holds the joined bullet block of the main points between the main-points heading and the call to action |
| Gemini.ThumbnailOutcomes | wepappchat/services/geminiService.ts:384-401 | success exactly when the model returns at least one image, and then the result is the first image's bytes; no images gives the fixed failure; a model error passes through; one image is asked for |
| Gemini.KeywordSubstitution | wepappchat/services/geminiService.ts:404-407 | only the first `${keyword}` of the template is replaced and the rest is kept; a template without it is sent unchanged |
| Gemini.TitleLines | wepappchat/services/geminiService.ts:423 | one `- "title"` line per channel video, in order |
| Gemini.VideoTitlesLines | wepappchat/services/geminiService.ts:423 | when no title holds a newline, the joined list splits back into exactly one line per video |
| Settings.EnvValue | contexts/SettingsContext.tsx:14-15 | an absent environment variable gives `""`, and a present one gives its value |
| Settings.SettingsProvider.constructor | contexts/SettingsContext.tsx:14-18 | the keys come from the environment, `apiKey` equals the video-platform key, and quota starts at 0 |
| Settings.SettingsProvider.IncrementQuotaUsage | contexts/SettingsContext.tsx:19 | adds exactly 1 to the quota and keeps `apiKey` equal to the video-platform key |
| Language.GetInitialLanguage | contexts/LanguageContext.tsx:12-20 | the stored code when it is set and known, and `es` otherwise |
| Language.LanguageProvider.constructor | contexts/LanguageContext.tsx:24 | the provider starts in the initial language |
| Language.LanguageProvider.SetLanguage | contexts/LanguageContext.tsx:32-36 | a known code becomes the language, and an unknown one changes nothing |
| Language.LanguageProvider.FindTranslation | contexts/LanguageContext.tsx:41-48 | the loop with its early exit finds the string at the key path, or nothing when a step is missing or the value is no string |
| Language.LanguageProvider.T | contexts/LanguageContext.tsx:38-59 | `t` returns the current language's template, else the English one, else the key, with each replacement applied in turn |
| Language.WalkIsPath | contexts/LanguageContext.tsx:42-46 | the step-by-step walk agrees with the root-down path lookup |
| Language.WalkAbsentStays | contexts/LanguageContext.tsx:45 | once a step finds nothing, the whole walk finds nothing, so the early return loses nothing |
| Language.FallbackOrder | contexts/LanguageContext.tsx:50 | the fallback order is the current language, then English, then the key |
| Language.UnknownLanguageReadsEnglish | contexts/LanguageContext.tsx:42-50 | a language without a table reads the English table |
| Language.MissingKeyIsKey | contexts/LanguageContext.tsx:47-50 | a key that holds no string in either table is returned as it is |
| Language.ReplacementsCompose | contexts/LanguageContext.tsx:53-55 | replacements apply in order: a record split in two acts as the first part, then the second |
| Language.EveryPlaceholderReplaced | contexts/LanguageContext.tsx:54 | one replacement puts its value in place of every `{name}`, and none survives in the pieces between |
| Language.AbsentPlaceholderKept | contexts/LanguageContext.tsx:54 | a replacement whose placeholder is absent leaves the template unchanged |
| OneMillionConsultantComponent.Wire | components/OneMillionConsultant.tsx:327-347 | the injected calls are the data client's id extraction and video lookups and the consulting request |
| OneMillionConsultantComponent.Validate | components/OneMillionConsultant.tsx:303-314 | the checks in order: a missing key, a blank benchmark, then a blank user input in improve mode; the run may start exactly when none fails |
| OneMillionConsultantComponent.ClassifyFirstMatch | components/OneMillionConsultant.tsx:350-364 | each error key is chosen exactly when its phrase is the first of "invalid url", "not found", "failed to fetch", "no videos found" that the lower-cased message contains; otherwise the key is unknown |
| OneMillionConsultantComponent.InvalidUserUrlStopsRun | components/OneMillionConsultant.tsx:326-355 | in improve mode, a user input with no id ends the run before any fetch, with the invalid-URL key and no charge |
| OneMillionConsultantComponent.QuotaCountsResolvedVideos | components/OneMillionConsultant.tsx:329-343 | quota is charged once per resolved video, so a complete run charges 1 in new mode and 2 in improve mode |
| OneMillionConsultantComponent.BenchmarkLookup | components/OneMillionConsultant.tsx:335-343 | the benchmark is fetched by id when the input yields one, and is otherwise searched for with the whole input |
| OneMillionConsultantComponent.ConsultingRequestCarriesUserVideo | components/OneMillionConsultant.tsx:324-348 | the consultation is the last request, made only once the benchmark is known; it carries a user video exactly in improve mode; a failed consultation keeps the benchmark video |
| OneMillionConsultantComponent.RenderMode | components/OneMillionConsultant.tsx:372-392 | no display without an analysis; otherwise the comparison exactly when the result is comparative |
| OneMillionConsultantComponent.WiredConsultingIsShaped | wepappchat/services/geminiService.ts:305-326 | when the model honours its schema, the real consulting call answers with a comparison exactly when a user video is sent |
| OneMillionConsultantComponent.DisplayFollowsWorkflow | components/OneMillionConsultant.tsx:346-389 | a successful improve run shows the comparison, and a successful new run shows the proposal |
| OneMillionConsultantComponent.OneMillionConsultant.constructor | components/OneMillionConsultant.tsx:289-297 | the workflow and inputs as given, with nothing loaded |
| OneMillionConsultantComponent.OneMillionConsultant.HandleAnalyze | components/OneMillionConsultant.tsx:302-370 | a failed check sets only its key: no reset, no request, no quota; otherwise error, analysis, both videos, quota and trace are those of `RunAnalyze`, and the run ends not loading with an empty step |
| OneMillionConsultantComponent.OneMillionConsultant.Analyze | components/OneMillionConsultant.tsx:316-369 | a validated run resets the state, runs, and leaves the outcome of `RunAnalyze` |
| OneMillionConsultantComponent.OneMillionConsultant.ImproveRun | components/OneMillionConsultant.tsx:324-348 | the improve run: the user stage, then the benchmark stage only when the user stage succeeded |
| OneMillionConsultantComponent.OneMillionConsultant.FetchUserVideo | components/OneMillionConsultant.tsx:325-332 | extracts the user id, fetches the video, shows it and charges once, or fails with the invalid-URL message or the fetch error |
| OneMillionConsultantComponent.OneMillionConsultant.ResolveAndConsult | components/OneMillionConsultant.tsx:334-348 | resolves the benchmark by id or search, charges once, shows it, then requests the consultation |
| OneMillionConsultantComponent.ThumbnailImages | wepappchat/services/geminiService.ts:384-401 | the injected image call is the thumbnail image call |
| OneMillionConsultantComponent.ThumbnailGenerator.constructor | components/OneMillionConsultant.tsx:40-42 | nothing loaded and no error |
| OneMillionConsultantComponent.ThumbnailGenerator.HandleGenerate | components/OneMillionConsultant.tsx:45-57 | success shows the image as a `data:image/jpeg;base64,` URL with no error; failure sets the failure key and keeps the earlier image; loading ends either way |
| OneMillionConsultantComponent.StoryboardPrompts | wepappchat/services/geminiService.ts:355-382 | the injected scene-prompt call is the storyboard-prompt call in the current language |
| OneMillionConsultantComponent.FirstFailure | components/OneMillionConsultant.tsx:147-156 | the first scene whose image request fails: every earlier request succeeds |
| OneMillionConsultantComponent.FirstFailureAt | components/OneMillionConsultant.tsx:147-157 | the scene where the run of successful requests ends is the first failure |
| OneMillionConsultantComponent.Filled | components/OneMillionConsultant.tsx:145-155 | the storyboard with exactly the scenes before a bound holding their images, each scene keeping its title and prompt |
| OneMillionConsultantComponent.NothingFilled | components/OneMillionConsultant.tsx:145 | the placeholders with empty image URLs are the storyboard with nothing filled in |
| OneMillionConsultantComponent.FillNext | components/OneMillionConsultant.tsx:151-155 | writing scene i's image into the storyboard changes only scene i and extends the filled prefix by one |
| OneMillionConsultantComponent.StoryboardKeepsPartialResults | components/OneMillionConsultant.tsx:147-159 | a failure at scene k keeps every image before k and leaves scene k and later scenes empty; without failure every image is in |
| OneMillionConsultantComponent.StoryboardVisualizer.constructor | components/OneMillionConsultant.tsx:128-131 | an empty storyboard, zero progress and no error |
| OneMillionConsultantComponent.StoryboardVisualizer.HandleGenerate | components/OneMillionConsultant.tsx:134-163 | the storyboard and progress are reset; a failed or empty prompt list leaves both empty with the unknown-error key and no image request; otherwise the images are requested in order up to the first failure |
| OneMillionConsultantComponent.StoryboardVisualizer.GenerateImages | components/OneMillionConsultant.tsx:144-159 | the progress total is the scene count and the current count is the number of requests made, so no request follows a failure; the storyboard holds every image before the first failure; a failure sets the unknown-error key |
| ChatConsultantComponent.ChatIn | wepappchat/services/geminiService.ts:449-463 | the injected chat call is the chat stream opened with the language's system instruction |
| ChatConsultantComponent.TranslatorFor | contexts/LanguageContext.tsx:38-59 | the injected translator is `t` without replacements in a fixed language |
| ChatConsultantComponent.History | wepappchat/components/ChatConsultant.tsx:64 | the history is the message list without its first message, which is the greeting |
| ChatConsultantComponent.ShownInOrder | wepappchat/components/ChatConsultant.tsx:61-84 | the answer bubble first shows `...`, then after the k-th chunk the first k chunks concatenated, then the error text if the stream fails; what it keeps is the last thing it showed |
| ChatConsultantComponent.ConcatAppend | wepappchat/components/ChatConsultant.tsx:67-70 | accumulating two runs of chunks is accumulating each and concatenating |
| ChatConsultantComponent.AnswerGrows | wepappchat/components/ChatConsultant.tsx:67-76 | the shown answer only grows: the text after k chunks starts the text after any later chunk |
| ChatConsultantComponent.ChatConsultant.constructor | wepappchat/components/ChatConsultant.tsx:41-45 | exactly one model-role greeting in the current language, empty input, not loading |
| ChatConsultantComponent.ChatConsultant.HandleSend | wepappchat/components/ChatConsultant.tsx:52-87 | a blank input or a send while loading changes nothing; otherwise the user message and the final answer are appended, the input is cleared, loading ends, and the service is asked once with the earlier list minus the greeting and the new text |
| ChatConsultantComponent.ChatConsultant.Send | wepappchat/components/ChatConsultant.tsx:55-87 | the send after the guard: exactly two messages are appended, and the bubble shows the placeholder, the growing answer, then the error text on failure |
| ChatConsultantComponent.ChatConsultant.StreamAnswer | wepappchat/components/ChatConsultant.tsx:67-76 | after the loop, the last message holds all chunks concatenated in arrival order; earlier messages and the list length are unchanged |
| ChatConsultantComponent.ChatConsultant.ShowError | wepappchat/components/ChatConsultant.tsx:78-84 | the last message is overwritten with the error text and the list length is unchanged |
| ChannelAnalyzerComponent.WireChannel | wepappchat/components/ChannelAnalyzer.tsx:74-79 | the injected calls are the channel fetch and the channel analysis |
| ChannelAnalyzerComponent.Validate | wepappchat/components/ChannelAnalyzer.tsx:60-67 | a missing key, then a blank identifier; the run may start exactly when neither holds |
| ChannelAnalyzerComponent.ClassifyChannelFirstMatch | wepappchat/components/ChannelAnalyzer.tsx:82-92 | case-insensitive first match: "not found" gives the channel-not-found key, else "failed to fetch" gives the fetch-failed key, else the key is unknown |
| ChannelAnalyzerComponent.QuotaAfterFetch | wepappchat/components/ChannelAnalyzer.tsx:73-79 | quota is charged exactly once exactly when the fetch succeeds, right after it and before the analysis, which is asked for the fetched channel |
| ChannelAnalyzerComponent.ChannelKeptOnAnalysisFailure | wepappchat/components/ChannelAnalyzer.tsx:75-93 | a failed analysis keeps the fetched channel on show, next to the failure |
| ChannelAnalyzerComponent.AnalysisOrError | wepappchat/components/ChannelAnalyzer.tsx:72-93 | a run leaves an analysis exactly when it leaves no error, and an analysis only next to its channel |
| ChannelAnalyzerComponent.ChannelAnalyzer.constructor | wepappchat/components/ChannelAnalyzer.tsx:50-54 | nothing loaded, no error, empty step |
| ChannelAnalyzerComponent.ChannelAnalyzer.HandleAnalyze | wepappchat/components/ChannelAnalyzer.tsx:59-98 | a failed check sets only its key, with no request and no quota; otherwise channel, analysis, error, quota and trace are those of `RunChannel`, and the run ends not loading with an empty step |
| KeywordAnalyzerComponent.IdeasIn | wepappchat/services/geminiService.ts:404-420 | the injected idea call is the keyword-ideas call in the current language |
| KeywordAnalyzerComponent.KeywordAnalyzer.constructor | components/KeywordAnalyzer.tsx:24-27 | no ideas, no error, not loading |
| KeywordAnalyzerComponent.KeywordAnalyzer.HandleAnalyze | components/KeywordAnalyzer.tsx:30-47 | a blank keyword sets its key, with no request and ideas untouched; otherwise one request is made, success gives its ideas and no error, any failure gives the generate-failed key with no ideas, and loading ends |

## Left out

- Network, AI and storage I/O. `fetch`, the model calls, `JSON.parse` of model output and
  `localStorage` are replaced by the parameters the components and services take: `Api`,
  `UrlParser`, `AiModel` and the stored language. The request URLs, including the API key and
  `encodeURIComponent`, are not built.
- `new URL` and `URLSearchParams` are simplified. The URL parser is a parameter that gives the
  query component or a failure. The query lookup splits on `&` and `=` without percent-decoding or
  `+` handling.
- A non-JSON error body in a failed reply is not modelled. In the source, reading
  `error.error.message` from such a body would throw a different error.
- `parseInt(...).toLocaleString()` number formatting is a parameter (`formatCount`), because it
  depends on the locale.
- Strings are sequences of code points, not UTF-16 units.
- Strings.LowerChar: `toLowerCase` is modelled for ASCII letters only. The classified phrases are
  ASCII, but a non-ASCII letter in a message is not lower-cased.
- The `$` patterns of `String.prototype.replace` (for example `$&` in a replacement value) are not
  modelled. The `{name}` placeholders are matched literally: a name holding regular-expression
  metacharacters is not modelled.
- Language.ApplyReplacements: replacements are an ordered list of name/value pairs, with values
  already turned into strings. That list stands in for the `Object.entries` order of the
  replacements record.
- Error messages and loading steps are kept as translation keys.
  - The channel analyzer and the consultant translate the loading step when they set it, and
    translate the error key when they show it.
  - The thumbnail generator and the storyboard store `t('error…')` directly.
  - The model stores the key everywhere, so the translation step is not part of their state.
- Language.Step / Language.LanguageProvider.FindTranslation: a lookup sees only the table's own
  entries. In the source, `result?.[k]` (contexts/LanguageContext.tsx:44-45) also indexes into a
  string leaf (`t('error.unknown.0')` gives the message's first character) and reaches inherited
  object properties (`t('constructor.name')` gives `"Object"`). Neither is modelled, and the model
  returns the key in both cases. Language.GetInitialLanguage and
  Language.LanguageProvider.SetLanguage read the language table the same way: `languages[storedLang]`
  and `languages[lang]` (lines 15 and 33) are also truthy for inherited names such as
  `"constructor"`. Every call site passes literal keys.
- The services are functions of their requests, so two identical requests in one run get the same
  reply. This holds for `Env`, `ImageGenerator`, `ChannelEnv`, `Chatter`, `IdeaGenerator`, the
  `Api` endpoints and the `AiModel` calls. In the source each request is a fresh call
  (components/OneMillionConsultant.tsx:149 for images, :329 and :337 for the two video fetches),
  and image generation is not deterministic. Two storyboard scenes with the same prompt therefore
  both succeed with the same image or both fail. An improve run whose user video is its benchmark
  gets the same fetch outcome twice. No lemma depends on this.
- The image requests the storyboard makes are not recorded in a trace. The progress counter
  stands for the number of requests.
- `FullScriptGenerator` in components/OneMillionConsultant.tsx:83-122 is not part of this model.
  Only its service call, `Gemini.GenerateFullScript`, is modelled.
- JSX rendering, the markdown formatter `formatText` of the chat, scrolling, `console.error`, the
  header, footer, settings modal and app shell are not modelled. They affect presentation only.
- React scheduling, stale closures and concurrent runs are not modelled. Each handler is one
  sequential run, and `isLoading` is the only re-entrancy guard.
- The module-level check that the AI key is set (wepappchat/services/geminiService.ts:6-8) runs at
  load time, outside any handler.
- The prompt wording and translation strings are content. They are parameters (`PromptSet` and
  the translation table); only the thumbnail prompt, the outline prompt layout and the placeholders
  are fixed text.
