# aeaiou image generator front end: the generation workflow of app.js

This project is a Dafny model of the script that drives the aeaiou image generation
page (`app.js`). It covers three parts of that script:

- **The workflow state machine.** This is the path from a submitted prompt to a
  displayed image:
  - the prompt is checked and the generate request is sent;
  - the job's status is polled with an interval timer;
  - the finished image is preloaded and shown;
  - the loading indicator and the button follow the loading state;
  - the download, share and variation buttons act on the current image.
- **The gallery strip.** Cards are prepended, so the newest card comes first. The
  page loads four sample images into it.
- **`formatPromptAsTitle`.** This turns a prompt into a card title.

The script keeps its state in module-level variables and DOM elements.
`Workflow.App` is a class with one field for each of them.

The network, the timers and the image loader are outside the model:

- Every request the page makes is appended to `requests`:
  - `POST /generate`;
  - `GET /status/{id}`;
  - setting an image's `src` to preload it.
- Every answer that comes back is a call to one of the `On...` methods.
- The browser's table of live intervals is a field, `liveTimers`. It is kept apart
  from the script's handle, `pollingInterval`.
- The class invariant `Valid` ties the handle and the table together:
  - every live interval is the one the handle names, so at most one interval is
    live;
  - the button's label and the loading indicator agree with the disabled flag;
  - the preview shows the current image.

`JsString` models the JavaScript built-ins the script relies on:

- `trim`, with the full ECMAScript set of white space and line terminators;
- `split(' ')` and `join(' ')`.

`Scenarios` drives whole runs through the class's contracts only.

### Two behaviours of app.js worth knowing

- **Image load failure.** On an image load failure nothing resets. The `onerror`
  throw at `app.js:165-167` escapes the callback, because the surrounding `try` has
  already returned. The page stays "Generating...", so the model has no event for a
  failed load.
- **The polling timer after a completed job.** A completed job stops its interval
  (`app.js:133`) but leaves `pollingInterval` set. The next job's in-progress answer
  finds the handle set, so it creates no interval (`app.js:142-145`). That job is
  asked for its status once and never again, while the button keeps saying
  "Generating...". The details are under "## Findings".

## Model

| member | source | states |
|---|---|---|
| JsString.TrimStartSpec | app.js:68 | leading white-space removal: the result is a suffix that starts with a non-white-space character, and everything dropped is white space |
| JsString.TrimEndSpec | app.js:68 | trailing white-space removal: the result is a prefix that ends with a non-white-space character, and everything dropped is white space |
| JsString.TrimIsInnerSlice | app.js:68 | `trim()` returns a slice of its input that is bounded on both sides by white space only, and it neither starts nor ends with white space |
| JsString.TrimEmptyIffBlank | app.js:68-72 | `trim()` gives "" exactly when the prompt is all white space, which is when the submit is refused |
| JsString.TrimNotEmpty | app.js:68-72 | a string with one non-white-space character never trims to "" |
| JsString.OrElse | app.js:99-108 | `message \|\| fallback` on strings: a non-empty message is returned as it is, "" (falsy) gives the fallback, and the result is non-empty when either is |
| JsString.SpaceCountAppend | app.js:413 | the spaces of a concatenation are the spaces of its parts |
| JsString.Split | app.js:413 | `split(' ')` yields exactly one more piece than the string has spaces |
| JsString.SplitHasNoSpaces | app.js:413 | no piece of `split(' ')` contains a space |
| JsString.JoinSplit | app.js:413-415 | `split(' ').join(' ')` gives back the original string |
| JsString.SplitJoin | app.js:413-415 | splitting a join of space-free pieces gives back those pieces |
| JsString.JoinExtendsFirst | app.js:415 | extending the first piece extends the join by the same prefix |
| JsString.SplitAfterWord | app.js:413 | a space-free word followed by a space splits off as exactly that word |
| JsString.SplitWord | app.js:413 | a space-free string splits into itself alone |
| JsString.JoinAppend | app.js:415 | the join of the first k pieces, a space, and the join of the rest is the join of all pieces |
| Title.WordsPrefixEndsAtSpace | app.js:413-415 | the first n words, joined again, are the prompt up to its n-th space, and a space follows them |
| Title.WordsPrefixSpaces | app.js:413-415 | the first n words, joined again, contain n-1 spaces |
| Title.TitleOfLongPrompt | app.js:412-416 | a prompt with more than four spaces gets as its title its prefix up to the fifth space, followed by "..." |
| Title.TitleUnchangedIffShort | app.js:412-416 | the title equals the prompt exactly when the prompt has at most five words |
| Title.TitleHasAtMostFiveWords | app.js:412-416 | a title never has more than five words |
| Title.TitleIdempotent | app.js:412-416 | formatting a title again leaves it unchanged |
| Gallery.NewestFirstStep | app.js:367-369 | one more loop iteration puts the next image's card in front |
| Gallery.NewestFirstAt | app.js:367-369 | prepending one at a time reverses the order: card k shows the k-th image counted from the end, and there is one card per image |
| Gallery.NewestFirstLength | app.js:367-369 | the fold adds one card per image |
| Gallery.SampleGalleryOrder | app.js:347-370 | after the page loads there are exactly four sample cards, and card k is the card (url and prompt) of the sample image at list position 3-k: the forest in front, the sunset at the back |
| JsString.Trim | app.js:68 | `trim()`: leading, then trailing white space removed; `TrimIsInnerSlice` and `TrimEmptyIffBlank` state what it returns |
| JsString.Join | app.js:415 | `join(' ')` of a non-empty list of pieces; `JoinSplit`, `SplitJoin` and `JoinAppend` relate it to `Split` |
| Title.FormatPromptAsTitle | app.js:412-416 | the title of a prompt; `TitleOfLongPrompt`, `TitleUnchangedIffShort`, `TitleHasAtMostFiveWords` and `TitleIdempotent` state what it returns |
| Gallery.ItemFor | app.js:373-390 | the card `addToGallery` builds: the url, the prompt as alt text |
| Gallery.GalleryItem.Title | app.js:389-390 | a card's heading is the title formatted from its alt text |
| Gallery.NewestFirst | app.js:367-369 | the cards the `forEach` of `addToGallery` puts in front, the last image's first; `NewestFirstAt` states the order |
| Workflow.StatusOf | app.js:129-146 | "completed" selects the completed branch with the response's image URL, "failed" the failed branch with its message, any other status the in-progress branch; the result is always well formed |
| Workflow.ErrorText | app.js:108 | the text `Error: ${message \|\| fallback}` of the error notifications at app.js:108, 136 and 149 |
| Workflow.App.Valid | app.js:291-308 | the invariant every method keeps: label and indicator follow the disabled flag, every live interval is the one the handle names, the current image was requested and is previewed with its actions |
| Workflow.App.HasImage | app.js:210 | `currentImageUrl` is truthy, which is the guard of `handleDownload` and `handleShare` (app.js:210, 224) |
| Workflow.VariationNotBlank | app.js:250-252 | a prompt with " (variation)" appended never trims to "", so the variation click is never refused as an empty prompt |
| Workflow.App.constructor | app.js:24-26 | the page starts idle, with no image, no job, no timer handle and no live interval |
| Workflow.App.AtMostOneLiveTimer | app.js:142-145 | under the invariant, at most one polling interval is live |
| Workflow.App.SetPrompt | app.js:39-42 | a suggestion chip, or typing, sets the prompt box and changes nothing else |
| Workflow.App.SetLoading | app.js:291-301 | the indicator, the disabled flag and the label ("Generating..." / "Generate") follow the flag |
| Workflow.App.ClearInterval | app.js:306 | `clearInterval` removes the named interval from the live table; null removes nothing |
| Workflow.App.SetInterval | app.js:144 | `setInterval` adds one live interval with a fresh id that polls the job every 2000 ms |
| Workflow.App.ResetUI | app.js:304-308 | the page becomes idle, no interval is live, and the handle is null |
| Workflow.App.ShowNotification | app.js:311 | one notification is appended |
| Workflow.App.AddToGallery | app.js:373-409 | exactly one card (the url, the prompt as alt text, the formatted title) goes in front, and the earlier cards keep their order |
| Workflow.App.LoadGalleryImages | app.js:347-370 | the four sample cards go in front of the gallery in reverse list order |
| Workflow.App.PrependEach | app.js:367-369 | the `forEach` loop leaves the cards of the images, newest first, in front of the earlier gallery |
| Workflow.App.HandleFormSubmit | app.js:65-86 | a prompt that trims to "" only shows "Please enter a prompt" and sends nothing; any other prompt turns loading on and sends the trimmed prompt with the selected model, the ratio and 50 steps |
| Workflow.App.OnGenerateResponse | app.js:87-111 | an accepted job is polled once, with no timer yet; an error shows `Error: message \|\| "Failed to generate image"` and resets the page |
| Workflow.App.PollJobStatus | app.js:114-121 | one status request for the job |
| Workflow.App.OnTimerFired | app.js:144 | a live interval polls the job it was created for; a cleared one sends nothing |
| Workflow.App.OnStatus | app.js:131-147 | completed: preloads the image and clears the live interval, leaving the handle set; failed: shows the error and resets; otherwise: records the job and creates an interval only when the handle is null |
| Workflow.App.OnStatusIntended | app.js:131-147 | as `OnStatus`, except that "completed" also sets the handle back to null, as `resetUI` does (app.js:307) |
| Workflow.App.OnPollError | app.js:148-153 | a failed status request shows `Error: message \|\| "Failed to check job status"` and resets the page |
| Workflow.App.FetchImage | app.js:156-168 | the image's preload is requested |
| Workflow.App.OnImageLoaded | app.js:160-163 | a requested image becomes current and is displayed: the preview and its actions, a new gallery card, and the page idle |
| Workflow.App.DisplayImage | app.js:177-206 | the preview shows the image with its actions, a card titled from the current prompt box goes in front, and loading ends |
| Workflow.App.HandleDownload | app.js:209-220 | with no truthy current image, nothing happens; otherwise the download link points at it and "Image downloaded successfully" is shown |
| Workflow.App.HandleShare | app.js:223-244 | something is shared exactly when there is a truthy current image, and it is that image's URL |
| Workflow.App.HandleVariations | app.js:247-254 | " (variation)" is appended to the prompt; the click submits it only if the button is enabled; the notice is shown either way |
| Scenarios.LoadedPage | app.js:29-32 | after `DOMContentLoaded` the page is idle, nothing has been sent, and the gallery holds the four sample cards in reverse list order |
| Scenarios.Submit | app.js:65-86 | a non-blank prompt is sent trimmed, with 50 steps, and the button says "Generating..." |
| Scenarios.SubmitRun | app.js:96-103 | the accepted job is asked for its status before any interval exists |
| Scenarios.PollingRun | app.js:139-146 | two in-progress answers leave exactly one live interval, polling the job every 2000 ms |
| Scenarios.GenerationRun | app.js:131-134 | after "completed" and the image load, the new card showing the image under the prompt is in front of the four sample cards, the page is idle and no interval is live, but the handle is still set |
| Scenarios.IntendedGenerationRun | app.js:131-134 | the same run with `OnStatusIntended`: after the image is shown neither a live interval nor a handle is left |
| Scenarios.SecondJobIsNotPolled | app.js:142-145 | after one completed job, a second job's in-progress answer creates no interval while the button stays "Generating..." |
| Scenarios.SecondJobIsPolledIntended | app.js:142-145 | with `OnStatusIntended`, a second job's in-progress answer starts a live interval polling that job every 2000 ms |
| Scenarios.BlankPromptSendsNothing | app.js:68-72 | a blank prompt sends nothing, leaves the button idle and shows only the error |

## Left out

- The HTTP exchanges (fetch, headers, CORS, JSON parsing): answers arrive as events. A malformed body and a missing `data.result.image_url` on a completed job are not modelled.
- `guidance_scale: 7.5` is a constant in the request body and is not modelled.
- Real time: timers fire only when the caller invokes `OnTimerFired`. The 2000 ms period is recorded, not enforced.
- The image `onerror` path (app.js:165-167): the exception escapes the callback and changes no state, so there is no event for it.
- `Workflow.App.HandleShare`: the share sheet and the clipboard, and the notices the clipboard path shows, are browser services. The model returns only the URL that would be handed over.
- `Workflow.App.HandleDownload`: the generated file name uses the clock and is not modelled.
- `Workflow.App.ShowNotification`: the container element, the animation and the removal after five seconds are not modelled. The notification stays in the list.
- The lightbox (`openImageInLightbox`), the reveal animation, the placeholder text and the chip highlight are presentation only.
- Gallery card timestamps come from the clock (`formatDate(new Date())`) and are not modelled.
- The initial markup is not modelled. The constructor assumes an enabled "Generate" button, a hidden indicator and an empty gallery.
- `handleVariations` clicks the generate button. A disabled button ignores a click, so `Workflow.App.HandleVariations` submits only when the button is enabled. Otherwise the click's form-submit dispatch is taken as a direct call to `HandleFormSubmit`.
- payment.js is not part of this model.

## Findings

| source | as written | input that shows it | evidently intended | confidence | as-written member | corrected member |
|---|---|---|---|---|---|---|
| app.js:131-145 | on "completed" the interval is cleared but `pollingInterval` keeps its old id, so the `if (!pollingInterval)` guard skips `setInterval` for every later job | one job that completes, then a second prompt whose job answers "pending": the second job is checked once and never polled again, and the button stays "Generating..." | a completed job also sets `pollingInterval = null` (as `resetUI` does at app.js:307), so the next job starts its own interval | not executed | Scenarios.SecondJobIsNotPolled | Scenarios.SecondJobIsPolledIntended |
