# ConCreate routes in Dafny

This project models the two API routes of ConCreate that hold logic. ConCreate turns a short video idea into a narrated stock-footage video.

- **`POST /api/generate-audio-video`** (`AudioVideo`, `Footage`). The route walks the script parts in input order. For each part it:
  - asks a text-to-speech service for narration and rejects an absent or empty audio payload;
  - sets the narration length to the placeholder `calculateAudioDuration`, which is always 10 seconds;
  - searches stock footage (5 results per page) and rejects an absent or empty `videos` list;
  - greedily takes search hits in ranked order until their whole-second durations reach the narration length, pushing the link of each taken hit's first file;
  - rejects the part when even all hits together are too short.
  Any failure aborts the whole request with an opaque server error. Otherwise the route answers with a fixed final video URL. `Footage.SelectVideos` and `AudioVideo.GenerateAudioVideo` are the two loops. Each is proved equal to a specification function (`Footage.Allocation`, `AudioVideo.Run`), and lemmas state what those functions guarantee.
- **`POST /api/generate-script`** (`Script`, `JsText`). The route maps the video-length label to a word count (`"15s"` gives 50, `"1m"` 200, `"5min"` 1000, anything else 50). It builds the completion prompt from that count and the description, and returns the first choice's content trimmed, or `""` when that content is absent.

The remote services are parameters:
- text-to-speech and footage search, as the reply each gives to the call for part number `i` (`AudioVideo.Services`);
- the chat completion, as a function of the request.

Each request records the constants the route sends, such as the voice model, output format, page size, chat model and token budget.

The design description of the pipeline goes further than this code. It has narration length taken from timing data, an equal split of screen time among the selected clips, and trimming, scaling, concatenation and muxing with ffmpeg. It also has a video orientation, input validation of the parts, and cleanup of working files. The route has none of these: it uses the constant 10 and never reads `videoOrientation`. It only collects `{audio, videos}` per part and returns a hard-coded URL. This model follows the code.

## Model

| member | source | states |
|---|---|---|
| `Footage.SelectVideos` | src/app/api/generate-audio-video/route.ts:41-52 | the inner loop (running total, pushed links, early break, insufficiency check) returns exactly `Allocation(videos, audioDuration)` |
| `Footage.Cut` | src/app/api/generate-audio-video/route.ts:44-48 | the number of hits the greedy walk takes never exceeds the number of hits |
| `Footage.CutIsFirstSufficientPrefix` | src/app/api/generate-audio-video/route.ts:45-48 | every shorter prefix totals less than the target; the walk stops before the end only on a prefix whose total reaches it |
| `Footage.CutUnique` | src/app/api/generate-audio-video/route.ts:45-48 | the stopping point is the only prefix length that is sufficient (or the whole list) with every shorter prefix insufficient |
| `Footage.AllocationSuccess` | src/app/api/generate-audio-video/route.ts:44-52 | a success is a prefix of the ranked hits, one first-file link per taken hit, totalling at least the target; dropping the last taken hit leaves the total strictly below the target |
| `Footage.AllocationSucceeds` | src/app/api/generate-audio-video/route.ts:45-52 | selection succeeds iff all hits together reach the target (equality accepted) and every taken hit has a file |
| `Footage.AllocationInsufficient` | src/app/api/generate-audio-video/route.ts:50-52 | "Insufficient video duration" iff every hit has a file and all hits together total less than the target |
| `Footage.AllocationNoVideoFile` | src/app/api/generate-audio-video/route.ts:46 | reading `video_files[0].link` fails iff some taken hit has no file |
| `AudioVideo.AudioDurationIsConstant` | src/app/api/generate-audio-video/route.ts:69-73 | `calculateAudioDuration` ignores its payload and always gives 10 |
| `AudioVideo.AudioCheckPrecedesSearch` | src/app/api/generate-audio-video/route.ts:26-35 | an absent or empty audio payload fails the part with its text, whatever the footage search would answer |
| `AudioVideo.EmptySearchFails` | src/app/api/generate-audio-video/route.ts:37-39 | a reply without `videos`, or with an empty list, fails the part with its query ("No videos found") |
| `AudioVideo.SegmentCoversNarration` | src/app/api/generate-audio-video/route.ts:26-56 | a finished part holds the non-empty audio returned for it and a non-empty minimal prefix of its search hits' links whose total reaches 10 seconds |
| `AudioVideo.FailureIsFinal` | src/app/api/generate-audio-video/route.ts:16-57 | once a part fails, the parts after it do not change the outcome |
| `AudioVideo.RunSuccess` | src/app/api/generate-audio-video/route.ts:14-57 | the request succeeds iff every part does, and then there is exactly one segment per part, in input order, each the one its part produced |
| `AudioVideo.RunFailure` | src/app/api/generate-audio-video/route.ts:16-57 | a failed request failed at some part, every earlier part having succeeded, with that part's error |
| `AudioVideo.GenerateAudioVideo` | src/app/api/generate-audio-video/route.ts:11-67 | the part loop computes exactly `Run`; the answer is the fixed URL on success and the opaque error on any failure |
| `JsText.TrimStart` | src/app/api/generate-script/route.ts:32 | removes exactly the longest whitespace prefix |
| `JsText.TrimEnd` | src/app/api/generate-script/route.ts:32 | removes exactly the longest whitespace suffix |
| `JsText.Trim` | src/app/api/generate-script/route.ts:32 | `trim()` yields a slice of the input with only whitespace removed around it and no whitespace at either end |
| `JsText.TrimFixesTrimmed` | src/app/api/generate-script/route.ts:32 | a string with no whitespace at either end is its own trim |
| `JsText.TrimIdempotent` | src/app/api/generate-script/route.ts:32 | trimming twice equals trimming once |
| `JsText.Decimal` | src/app/api/generate-script/route.ts:22 | a whole number renders as a non-empty string of decimal digits |
| `JsText.DecimalRoundTrip` | src/app/api/generate-script/route.ts:22 | parsing the rendered digits gives the number back |
| `Script.WordCount` | src/app/api/generate-script/route.ts:19-20 | the word count is always 50, 200 or 1000, and 50 for any label outside the table |
| `Script.WordCountLabels` | src/app/api/generate-script/route.ts:18-20 | "15s" gives 50, "1m" gives 200, "5min" gives 1000 |
| `Script.WordCountMatchesAsWritten` | src/app/api/generate-script/route.ts:19-20 | for every label except the keys inherited from Object.prototype, the code's lookup-with-fallback yields the number `WordCount` gives |
| `Script.InheritedKeyBypassesFallback` | src/app/api/generate-script/route.ts:19-20 | as written, the label "toString" yields a function, not a number, because the fallback does not apply |
| `Script.PromptDeterminesInputs` | src/app/api/generate-script/route.ts:22 | the prompt carries the word count and the description verbatim: equal prompts come from equal word counts and equal descriptions |
| `Script.ScriptText` | src/app/api/generate-script/route.ts:32 | the script is the trimmed content, or "" when the content is absent, and has no whitespace at either end |
| `Script.ScriptTextIsTrimmed` | src/app/api/generate-script/route.ts:32 | trimming the returned script again leaves it unchanged |
| `Script.GenerateScriptOutcome` | src/app/api/generate-script/route.ts:14-38 | the request uses gpt-4o, 2048 tokens and one user message holding the prompt; the answer is a script iff the service replies with at least one choice, and the script is then the first choice's trimmed content |

## Left out

- The ElevenLabs, Pexels and OpenAI clients and their network calls are not modelled. Their replies are inputs, including a rejected call, which the route's `try` turns into the opaque error.
- Parsing of the JSON request body is not modelled. Parts are taken as well-formed records with string `text` and `query`; a body that is not JSON, or `parts` that is not an array, is outside the model.
- `NextResponse.json`, `NextResponse.error` and `console.error` are framework I/O, so the model has a `Response` value instead.
- Pexels durations are whole seconds, so they are `nat`. The audio length is the constant 10, so no floating point is modelled.
- The trimming, concatenation and muxing that the route only mentions in a comment are not modelled, and neither is any equal split of screen time: the code has none of them.
- The route builds its list of segments and then discards it. The model returns that list next to the response so that the proofs can state what it holds.
- The UI pages and the two stub routes (`generate-audio`, `split-script`) hold no logic and are not part of this model.
- `Script.WordCount`: it models the intended lookup over the table's own keys. The code as written is modelled separately by `Script.WordCountAsWritten` (see Findings).

## Findings

| source | as written | input that shows it | evidently intended | confidence | as-written member | corrected member |
|---|---|---|---|---|---|---|
| src/app/api/generate-script/route.ts:19-20 | the lookup `mapping[videoLength]` with its fallback to 50 runs on an object literal, so it also finds properties inherited from Object.prototype, which are truthy, so the fallback is skipped | `videoLength` = "toString" (or "constructor", "valueOf", "__proto__", ...) makes the word count a function, and the prompt then reads "around function toString() { [native code] } words" | any label outside the table falls back to 50 words | high; not executed | `Script.InheritedKeyBypassesFallback` | `Script.WordCount` |
