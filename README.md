# Creative studio front end: a verified model of its decision logic

The application is a single-page front end over a hosted generative-AI service. It
has an image workshop and a video studio that turn a prompt into an image or a
short video, a gallery of past generations with a type filter and a text search,
and a shell that holds the active tab, the user profile and the generation
history, saved to local storage after every change.

This project models the logic around the provider calls and the UI state:

- `types.dfy` holds the records: `GenerationItem`, `UserProfile` and `AppTab`.
- `text.dfy` holds the string operations the code relies on: `trim` with the
  ECMAScript whitespace set, `toLowerCase` (ASCII letters only) and `includes`.
- `gallery.dfy` is the gallery's `filtered` list, a pure function with lemmas
  that state it completely: the kept positions, soundness, completeness, order,
  the unfiltered case and indifference to the letter case of the search term.
- `app_state.dfy` is the shell as a class `App` with `activeTab`, `history`,
  `user` and `storage` fields. It covers mounting (initial state, load effect,
  save effect), `addHistory`, `toggleVip`, tab selection and the view each tab
  renders.
- `gemini_service.dfy` is the service layer with the provider's replies as
  inputs:
  - the `optimizePrompt` fallback;
  - the `generateImage` part scan, a loop with an early return, and its data URI,
    which parses back;
  - the `generateVideoVeo` request;
  - its poll loop, a `while` loop proved equal to a specification function over
    a script of status replies;
  - the missing-link check and the download URL.
- `video_studio.dfy` and `image_workshop.dfy` are the two views as classes whose
  handlers are one-step state transitions. They call the service model with the
  provider's replies and the `App` object's `AddHistory`.

Provider replies, the host's key-selection answers, the fetched video's local URL,
the API key, and the id and timestamp of a new item are all parameters. The
generate handlers return the request they sent, and the optimise handlers the
prompt they sent (`None` when a guard returned early), so "no
generation is issued" can be stated.

Two consequences of the code are easy to miss:

- `optimizePrompt` falls back to the raw prompt when the reply is empty, and also
  when it is only whitespace. In both cases the trimmed text is the empty string,
  which is falsy.
- An operation that reports "not done" N times and then "done" costs N status
  queries (`getVideosOperation` calls). Counting the submission, that is N+1
  provider calls.

## Model

| member | source | states |
|---|---|---|
| Types.CompletedItem | components/ImageWorkshop.tsx:40-48 | the record added after a success has the given kind, URL, prompt, id and timestamp, status completed and is not a favourite |
| Text.Trim | services/geminiService.ts:14 | the trimmed string is the infix of the input left once a whitespace-only prefix and a whitespace-only suffix are cut, and it neither starts nor ends with whitespace |
| Text.LeadingSpace | services/geminiService.ts:14 | the count covers exactly the run of whitespace at the start: every counted character is whitespace and the next one is not |
| Text.TrailingSpace | services/geminiService.ts:14 | the count covers exactly the run of whitespace at the end: every counted character is whitespace and the one before is not |
| Text.TrimStart | services/geminiService.ts:14 | the result is a suffix of the input, everything removed is whitespace, and it does not start with whitespace |
| Text.TrimEnd | services/geminiService.ts:14 | the result is a prefix of the input, everything removed is whitespace, and it does not end with whitespace |
| Text.IsBlank | components/ImageWorkshop.tsx:34 | a prompt is blank exactly when its leading whitespace runs to its end |
| Text.BlankIffTrimEmpty | components/ImageWorkshop.tsx:34 | the guard `!prompt.trim()` holds exactly when every character of the prompt is whitespace |
| Text.TrimIdempotent | services/geminiService.ts:14 | trimming a trimmed string changes nothing |
| Text.Lower | components/Gallery.tsx:16 | lower-casing keeps the length and folds each character on its own |
| Text.LowerIdempotent | components/Gallery.tsx:16 | lower-casing twice is lower-casing once |
| Text.Contains | components/Gallery.tsx:16 | `includes` says yes exactly when the term occurs at some position of the string |
| Text.ContainsMiddle | services/geminiService.ts:10-12 | a string built around a piece contains that piece |
| Text.MessageOr | components/ImageWorkshop.tsx:50 | `message || fallback`: the message when it is non-empty, the fallback when it is empty |
| Gallery.Filtered | components/Gallery.tsx:14-18 | the filtered list is never longer than the history |
| Gallery.FilteredPositions | components/Gallery.tsx:14-17 | the result is the items at exactly the positions that pass both tests, in increasing position order: a subsequence, sound and complete |
| Gallery.KeptPositionsSelect | components/Gallery.tsx:14-17 | the result holds, in order, the history items at the kept positions |
| Gallery.KeptPositionsIncreasing | components/Gallery.tsx:14 | the kept positions are in range and strictly increasing, so history order is preserved |
| Gallery.KeptPositionsExact | components/Gallery.tsx:15-17 | a position is kept iff its item matches the type filter and the search |
| Gallery.FilteredSound | components/Gallery.tsx:15-16 | every shown item has the filtered type (unless 'all') and its lower-cased prompt contains the lower-cased term |
| Gallery.FilteredComplete | components/Gallery.tsx:14-17 | every history item passing both tests is shown |
| Gallery.FilteredAppend | components/Gallery.tsx:14 | filtering a concatenation is concatenating the filtered parts (order is kept) |
| Gallery.FilteredShowsAll | components/Gallery.tsx:15-16 | with 'all' and an empty search the whole history is shown |
| Gallery.FilteredEmptyTerm | components/Gallery.tsx:15-16 | with an empty search an item is shown iff it is in the history and passes the type filter |
| Gallery.FilteredIgnoresTermCase | components/Gallery.tsx:16 | two search terms with the same lower-case form give the same result |
| Gallery.FilteredLowerTerm | components/Gallery.tsx:16 | searching for the lower-cased term gives the same result as the term itself |
| Gallery.TwoItemExample | components/Gallery.tsx:14-18 | with a cat image and a dog video, 'video' shows just the dog and "CAT" with 'all' shows just the cat |
| AppState.Load | App.tsx:20-23 | the saved history when the key is present, the empty list when it is absent |
| AppState.Save | App.tsx:25-27 | after saving, the history key holds the list, and no other key changes |
| AppState.LoadAfterSave | App.tsx:20-27 | a saved history is loaded back unchanged on restart |
| AppState.LoadEmpty | App.tsx:20-23 | with nothing saved the history starts empty, and an empty list saved reloads as empty |
| AppState.ToggledVip | App.tsx:33 | the VIP flag is negated and name, credits and avatar are kept |
| AppState.ToggledVipTwice | App.tsx:33 | toggling twice restores the profile |
| AppState.ViewFor | App.tsx:90-93 | every tab but the profile tab renders a view |
| AppState.ViewForTabFor | App.tsx:90-93 | a tab renders a view iff the view belongs to that tab, so different tabs show different views |
| AppState.App.constructor | App.tsx:11-27 | the image workshop tab, the initial profile (not VIP, 20 credits), the saved history if present (else empty), and that history saved |
| AppState.App.CurrentView | App.tsx:90-93 | the view shown depends on the active tab alone; none for the profile tab |
| AppState.App.AddHistory | App.tsx:29-31 | the item is at index 0, the rest is the old history unchanged, the length grows by one, storage holds the new list, tab and profile are kept |
| AppState.App.ToggleVip | App.tsx:33 | the profile becomes the toggled profile; nothing else changes |
| AppState.App.SelectTab | App.tsx:47-51 | the chosen tab, any but the profile tab that no button offers, becomes active and renders a view; nothing else changes |
| AppState.Reopen | App.tsx:20-31 | reopening over the storage of a saved session gives back its history on the image workshop tab |
| GeminiService.OptimizeRequest | services/geminiService.ts:8-13 | the text model is asked with an instruction that contains the raw prompt |
| GeminiService.OptimizedPrompt | services/geminiService.ts:14 | a reply with content gives its trimmed text; no reply or a blank one gives the raw prompt exactly; any other result is not blank |
| GeminiService.OptimizedPromptNotBlank | services/geminiService.ts:14 | a prompt with content never becomes blank |
| GeminiService.OptimizedPromptTrimmed | services/geminiService.ts:14 | from a trimmed prompt, the result is trimmed too |
| GeminiService.ImageAspectValue | services/geminiService.ts:18-25 | each aspect button sends its own ratio string: "1:1", "4:3", "16:9" or "9:16" |
| GeminiService.ImageAspectValueInjective | services/geminiService.ts:18 | distinct aspect choices are sent as distinct strings |
| GeminiService.ImageRequestFor | services/geminiService.ts:18-27 | the image model, the prompt, and the ratio string of the chosen aspect (one of the four offered) |
| GeminiService.ResponseParts | services/geminiService.ts:29 | missing or empty candidates give no parts; the call fails, with the TypeError, exactly when the first candidate has no content; otherwise the result is that content's parts, or none when `parts` is absent |
| GeminiService.FirstInline | services/geminiService.ts:29-30 | the position found carries inline data and no earlier part does; none found means no part does |
| GeminiService.FirstInlineSkips | services/geminiService.ts:29-31 | parts without inline data in front are skipped |
| GeminiService.FirstInlineIgnoresLater | services/geminiService.ts:29-31 | parts after the first one with inline data are ignored |
| GeminiService.IndexOf | services/geminiService.ts:31 | the first occurrence of a character, or none when it does not occur |
| GeminiService.DataUri | services/geminiService.ts:31 | the URI is `data:`, then the MIME type, then `;base64,`, then the data, each at its own position |
| GeminiService.UriOf | services/geminiService.ts:31 | the URI of a part starts with `data:`, carries its rendered MIME type after it and ends with its rendered data |
| GeminiService.IndexOfAfter | services/geminiService.ts:31 | a character is found right after a prefix that does not contain it |
| GeminiService.DataUriRoundTrip | services/geminiService.ts:31 | `data:<mime>;base64,<data>` parses back into the MIME type and data |
| GeminiService.UriOfParses | services/geminiService.ts:31 | the URI of a part starts with `data:` and reads back as its MIME type and data ("undefined" for an absent field) |
| GeminiService.ImageResult | services/geminiService.ts:29-34 | a transport error is passed on; otherwise a failure is "No image data found in response" or the TypeError, and an image is a `data:` URI |
| GeminiService.NoCandidatesNoImage | services/geminiService.ts:29-34 | a response with missing or empty candidates fails with "No image data found in response" |
| GeminiService.ImageFromParts | services/geminiService.ts:29-34 | once the parts are reached, the image is the data URI of the first part with inline data, and the call fails with "No image data found in response" exactly when there is none |
| GeminiService.ImageFromFirstCandidate | services/geminiService.ts:29-34 | for a response with a first candidate: no content fails with the TypeError; otherwise the image is the data URI of the first inline part among that content's parts, or the call fails with "No image data found in response" |
| GeminiService.ImageResultShape | services/geminiService.ts:29-31 | a generated image reads back as the MIME type and data of the first inline part |
| GeminiService.ScanParts | services/geminiService.ts:29-34 | the loop returns the first inline part's data URI, or fails with "No image data found in response" |
| GeminiService.GenerateImage | services/geminiService.ts:18-35 | the request sent and the result are those of the specification for the given reply |
| GeminiService.VideoAspectValue | services/geminiService.ts:38-48 | each aspect button sends its own ratio string: "16:9" or "9:16" |
| GeminiService.VideoRequestFor | services/geminiService.ts:38-50 | the video model, the prompt, one video, '720p', and the ratio string of the chosen aspect |
| GeminiService.Poll | services/geminiService.ts:52-56 | never more queries than replies; none exactly when the operation is already done or there are no replies; still polling only after every reply was not done; a thrown reply ends polling after one query per not-done snapshot before it, and its message is the one reported |
| GeminiService.PollFinishedOnlyWhenDone | services/geminiService.ts:52-56 | polling finishes only at a done snapshot, after one query per not-done snapshot before it, and never makes more queries than there are replies |
| GeminiService.PollCountsQueries | services/geminiService.ts:52-56 | reporting not-done N times and then done finishes after exactly N queries, with that snapshot |
| GeminiService.PollUntilDone | services/geminiService.ts:52-56 | the loop's outcome (done, thrown, still waiting) and its query count are the specification's |
| GeminiService.DownloadLink | services/geminiService.ts:58 | the link is the `uri` of the first generated video's file when that chain is present, and none when a step is missing |
| GeminiService.DownloadUrl | services/geminiService.ts:61 | the URL is the link, then `&key=`, then the key |
| GeminiService.VideoResult | services/geminiService.ts:38-61 | a failed submission is passed on; the call waits exactly while polling has not finished |
| GeminiService.VideoResultFetch | services/geminiService.ts:52-61 | a done operation with a non-empty link is fetched at the link plus `&key=` and the key, and a fetch happens only then; a done operation without one fails with "Video generation failed"; a status query that throws fails with its message |
| GeminiService.GenerateVideoVeo | services/geminiService.ts:38-61 | the request sent and the outcome are those of the specification for the replies |
| VideoStudio.KeyGate | components/VideoStudio.tsx:21-28 | with the answer awaited, the gate passes iff the host reports a selected key |
| VideoStudio.KeyGateAsWritten | components/VideoStudio.tsx:23 | the gate as written passes for every present host, whatever it answers |
| VideoStudio.UnawaitedKeyGateAdmitsNoKey | components/VideoStudio.tsx:23 | the gate as written lets a host with no selected key through |
| VideoStudio.IsSessionExpiry | components/VideoStudio.tsx:74 | a failure is read as an expired key exactly when "not found" occurs somewhere in its message |
| VideoStudio.Settle | services/geminiService.ts:61-63 | the call stays unsettled exactly while the provider is waiting; it resolves exactly when there is a URL to fetch and the download succeeds, with the local URL; every other case is rejected with its message |
| VideoStudio.Studio.constructor | components/VideoStudio.tsx:13-19 | empty prompt, idle, no video, "16:9", no key request, no error |
| VideoStudio.Studio.SetPrompt | components/VideoStudio.tsx:126 | the prompt becomes the typed text |
| VideoStudio.Studio.SetAspectRatio | components/VideoStudio.tsx:134-142 | the aspect ratio becomes the chosen one |
| VideoStudio.Studio.CheckApiKey | components/VideoStudio.tsx:21-28 | passes iff a key is selected; otherwise sets `needsKey` |
| VideoStudio.Studio.HandleSelectKey | components/VideoStudio.tsx:30-37 | `needsKey` is cleared only when selection succeeds |
| VideoStudio.Studio.HandleOptimize | components/VideoStudio.tsx:39-50 | nothing on a blank prompt; otherwise the prompt is sent and replaced by the optimised one, or "Prompt optimization failed." is set, and `optimizing` ends false |
| VideoStudio.Studio.ShowFailure | components/VideoStudio.tsx:73-79 | a non-empty error is always shown; `needsKey` is set when the message has "not found", together with the session-expired text, and is otherwise unchanged, with the message or the timed-out fallback |
| VideoStudio.Studio.Conclude | components/VideoStudio.tsx:62-82 | success shows the video and adds exactly one completed video item; failure adds nothing and shows a non-empty error; `loading` ends false |
| VideoStudio.Studio.HandleGenerate | components/VideoStudio.tsx:52-83 | blank prompt: no change; no key: only `needsKey`; otherwise the error is cleared, one 720p request is sent, and the settled outcome is shown as in Conclude, a rejection always with a non-empty error; an unsettled call leaves `loading` true |
| ImageWorkshop.Workshop.constructor | components/ImageWorkshop.tsx:13-18 | empty prompt, idle, no image, aspect ratio "1:1", no error |
| ImageWorkshop.Workshop.SetPrompt | components/ImageWorkshop.tsx:77 | the prompt becomes the typed text |
| ImageWorkshop.Workshop.SetAspectRatio | components/ImageWorkshop.tsx:84-87 | the aspect ratio becomes the chosen one, always one of the four offered |
| ImageWorkshop.Workshop.HandleOptimize | components/ImageWorkshop.tsx:20-31 | nothing on a blank prompt; otherwise the prompt is sent and replaced, or "Failed to optimize prompt. Try a simpler description." is set, and `optimizing` ends false |
| ImageWorkshop.Workshop.HandleGenerate | components/ImageWorkshop.tsx:33-54 | blank prompt: no change; otherwise the error is cleared and either the image is shown with exactly one completed image item added, or the message (or "Failed to generate image.") is shown and nothing is added; `loading` ends false |

## Left out

- Rendering, styling and the planning tab are left out, because they are presentational with no logic.
- The provider SDK, `fetch`, `response.blob()` and `URL.createObjectURL` are left out, because they are foreign network and browser APIs. Their replies are parameters: the provider's responses, the status replies of the video operation, and the local URL or error of the download.
- The ten-second wait between status queries is left out; it is time only.
- GeminiService.PollUntilDone: runs over a finite script of status replies, because the source's loop has no bound. A script that ends before a done snapshot gives `StillPolling`; the model does not claim the real loop ends.
- VideoStudio.Studio.HandleGenerate: models an unsettled video call by leaving `loading` true and returning. The source never returns from that call.
- Local storage is a map from key to the history list, and `JSON.stringify`/`JSON.parse` are taken as lossless. A stored empty string (which the source ignores) or malformed text (which makes `JSON.parse` throw) cannot arise in the model.
- AppState.App.constructor: states the state once mounting settles. The source's save effect first writes the initial empty list and then, after the load re-renders, the loaded one.
- The host's `window.aistudio` object is a parameter: its key-selection answer and whether the selection dialog succeeded.
- `process.env.API_KEY` is a parameter. `Date.now()` is too: the new item's id and timestamp are independent parameters.
- Overlapping handler invocations and React's deferred state updates are left out: each handler is one atomic step.
- Text.Lower: folds only ASCII letters, not the full Unicode case mapping of `toLowerCase`.
- GeminiService.ResponseParts: the TypeError for a candidate without content carries V8's wording ("Cannot read properties of undefined (reading 'parts')"); other engines word it differently, and the image workshop shows whatever text the engine gives.
- VideoStudio.Studio.HandleSelectKey: the "Key selection failed" log written by `console.error` when selection fails (components/VideoStudio.tsx:35) is left out, because logging changes no state.
- A thrown value without a `message` (so `e.message.includes` itself throws) is left out: every failure carries a message string.
- The `PromptOptimizationResult` type, the favourite, delete, save and template buttons, and the VIP watermark are left out, because they have no behaviour.
- VideoStudio.Studio.CheckApiKey: models the gate with the host's answer awaited (see Findings); `KeyGateAsWritten` models the code as written.

## Findings

| source | as written | input that shows it | evidently intended | confidence | as-written member | corrected member |
|---|---|---|---|---|---|---|
| components/VideoStudio.tsx:23 | `!(window as any).aistudio?.hasSelectedApiKey()` negates the promise the host's asynchronous `hasSelectedApiKey` returns, and a promise is truthy, so the gate passes whenever the host object exists | a host with no key selected, whose `hasSelectedApiKey()` resolves to false: the gate passes and the video request is sent | await the answer and ask for a key when it is false | medium: rests on the host API being asynchronous; not executed | VideoStudio.KeyGateAsWritten, VideoStudio.UnawaitedKeyGateAdmitsNoKey | VideoStudio.KeyGate, VideoStudio.Studio.CheckApiKey |
