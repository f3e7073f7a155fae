# AuraStream generation controller, modelled in Dafny

AuraStream Pro is a React page. It sends an image URL, a text prompt and an
audio-style hint to the Kie AI job service (Sora 2 image-to-video). Then it
polls that service until the video is ready. The only logic in the page is
`handleGenerate` in `src/App.jsx`. This project models that controller and
proves properties of the model.

The controller goes through these steps:

- **Pre-flight checks** (`Validation.Validate`). The API key is checked first,
  and only outside demo mode. Then the reference image URL, then the prompt.
  An empty string counts as missing.
- **Demo path** (`Controller.Controller.RunDemo`). A fixed progress script
  (10, 35, 60, 85, 100) runs, then an image URL is built from the prompt
  (`Payloads.DemoUrl`).
- **Live path** (`Controller.Controller.RunLive`):
  - build the creation payload, with the audio hint appended to the prompt
    (`Payloads.BuildPayload`);
  - accept or reject the creation response (`Remote.AcceptSubmission`);
  - run the poll loop (`Controller.Controller.PollUntilDone`). Each status
    response is read by `Remote.Interpret`. While the job runs, progress is
    nudged by `Remote.Nudge`;
  - conclude (`Controller.Controller.Conclude`). A success without a URL is
    an error. A real result is stored and put at the front of the gallery.
- **Final reset**. Every run that reaches a terminal state sets progress back
  to 0 and clears `isGenerating` (`Controller.Controller.Settle`).

The network calls are replaced by abstract inputs:

- a `Remote.SubmitResponse` value for the creation call;
- a finite sequence of `Remote.PollResponse` values, one per poll.

If the responses run out before a terminal state, the call ends in the
explicit `Pending` outcome. The controller is then still waiting:
`isGenerating` stays set and no reset happens.

The pure specification is in module `Pipeline`:

- `RunPolls` is the poll loop as a function of the starting progress and the
  responses;
- `GenerateOutcome` is the outcome of a whole call;
- `RunTrace` is every progress value a call shows before the reset.

The class `Controller.Controller` holds the state that `handleGenerate`
updates through its setters: `progress`, `isGenerating`, `finalVideoUrl`,
`errorMsg` and `gallery`. It also holds two ghost logs. `ProgressLog` records
every value progress was set to. `Submitted` records every creation payload
sent. Its methods are proved against the `Pipeline` functions.

Notes on how the code behaves, all of which the model follows:

- The progress nudge is `Math.min(prev + 5, 85)`, so a running job's
  progress stops at 85 (`src/App.jsx:106`).
- A remote failure reaches the user as `"GPU Error: " + failMsg`, falling
  back to `"Generation failed."` (`src/App.jsx:117-118`).
- A status other than waiting, processing, success or fail reaches no
  branch (`src/App.jsx:104-119`): it is not an error, no progress is set,
  and the loop polls again.
- A poll or creation call that throws shows the exception's own message,
  with no prefix.
- A rejected status response with no `msg` shows `"Polling Error: undefined"`.
  This is how the template literal renders the missing field.
- Progress is reset to 0 at the end of a run, after 500 ms
  (`src/App.jsx:134-138`). A new run starts by setting 10.

## Model

| member | source | states |
|---|---|---|
| `Validation.Validate` | src/App.jsx:23-25 | No message exactly when no required field is missing. Otherwise the message names the first missing field in check order: key (outside demo mode only), then image URL, then prompt. |
| `Validation.DemoModeIgnoresKey` | src/App.jsx:23 | In demo mode the API key is never required: changing it does not change the validation result. |
| `Payloads.PayloadPrompt` | src/App.jsx:73 | The prompt sent is the user's prompt followed by the audio directive. The user prompt is a prefix, and the audio style sits just before the closing bracket. |
| `Payloads.BuildPayload` | src/App.jsx:69-76 | The creation body names the Sora 2 image-to-video model, sends exactly one image URL (the user's) and a prompt that extends the user's prompt. |
| `Payloads.DemoUrl` | src/App.jsx:44-45 | The demo result is the image-service prefix, then the encoded prompt with the styling suffix, then the fixed size query. |
| `Payloads.RendersAsImage` | src/App.jsx:266 | `url.includes('pollinations')` scanned from the left holds exactly when "pollinations" occurs somewhere in the URL; the viewer (line 266) and the gallery (line 326) then show the URL as an image, otherwise as a video. |
| `Wrappers.Includes` | src/App.jsx:266 | The left-to-right scan of `String.prototype.includes` is true exactly when the text occurs at some position. |
| `Payloads.DemoUrlRendersAsImage` | src/App.jsx:266 | Every demo result mentions "pollinations", so the viewer and the gallery show it as an image. |
| `Remote.AcceptSubmission` | src/App.jsx:79-86 | A task id is returned exactly when the transport is ok, the code is 200 and a non-empty taskId is present. Otherwise the error is "Kie AI API Error: " + body for a failed transport, "Init Failed: " + (msg or "Unknown error") for a bad reply, or the thrown message. |
| `Remote.Interpret` | src/App.jsx:100-122 | A response stops the loop with an error exactly when it threw, its code is not 200, it has no data, or its state is "fail". It completes exactly on "success" with data. It is running (progress nudged) exactly on "waiting" or "processing", and unrecognised (poll again, nothing set) on any other state. The error messages are "Polling Error: " + msg and "GPU Error: " + (failMsg or "Generation failed."). |
| `Remote.FinalUrl` | src/App.jsx:109-115 | The URL is empty exactly when the result document did not decode, its list is empty, or its first entry is empty. Otherwise it is the first entry. |
| `Remote.Nudge` | src/App.jsx:106 | The nudged progress never exceeds 85. From at most 85 it never goes down and rises by at most 5. |
| `Pipeline.RunPolls` | src/App.jsx:92-123 | The poll loop as a function of the starting progress and the responses: it sets at most one progress value per response it reads. |
| `Pipeline.RunPollsProgress` | src/App.jsx:89-123 | During polling, progress never goes down from its starting value. It stays at most 85 while the job runs. It ends at 95 exactly when the loop ends in success. |
| `Pipeline.RunPollsFirstDecisive` | src/App.jsx:92-123 | The first response that does not let the loop go on decides how it ends. Progress is nudged once for each earlier waiting or processing response, and not for an unrecognised state. |
| `Pipeline.RunPollsStillPolling` | src/App.jsx:92-123 | The loop is still waiting after the responses exactly when every response let it go on. It has then nudged once per waiting or processing response. |
| `Pipeline.UnrecognisedSetsNothing` | src/App.jsx:104-119 | A response with an unrecognised state sets no progress: the loop runs exactly as if that response were removed. |
| `Pipeline.RunPollsResolvedAt` | src/App.jsx:107-115 | A loop that ends in success ends on the first successful response and carries that response's URL. |
| `Pipeline.Resolution` | src/App.jsx:125-129 | A loop that succeeded with a non-empty URL generates that URL; a success with an empty URL fails with "Result returned but no video URL found."; a loop failure keeps its message; a loop still waiting stays pending. |
| `Pipeline.PollingTraceProgress` | src/App.jsx:60-127 | For an accepted job, the live progress values start at 10 and never go down. They end at 100 exactly when the run produces a result, and never exceed 100. |
| `Pipeline.RunTraceProgress` | src/App.jsx:22-140 | The progress values of any call never go down and stay within 10..100. |
| `Pipeline.RunTraceEnds` | src/App.jsx:23-129 | A call that produces a result ends its progress at 100. A call sets no progress at all exactly when validation rejects it. |
| `Pipeline.DemoRunProgress` | src/App.jsx:31-49 | A valid demo call shows 10, 35, 60, 85, 100, strictly increasing. It always produces a result, and that result is shown as an image. |
| `Pipeline.HollowSuccess` | src/App.jsx:109-125 | A success whose result document does not decode, or has no usable first URL, ends with "Result returned but no video URL found." and not with a decoding error. |
| `Pipeline.LiveResultIsFirstSuccessUrl` | src/App.jsx:107-129 | A live result is never empty. It is the URL of the first successful status response, and every earlier response let the loop go on. |
| `Pipeline.ExampleLiveSuccess` | src/App.jsx:92-129 | processing, processing, success with one URL: that URL is the result, and progress goes 10, 20, 25, 30, 95, 100. |
| `Pipeline.ExampleUnrecognisedState` | src/App.jsx:104-127 | A "queued" response and then a success: progress goes 10, 20, 95, 100, with no nudge for "queued". |
| `Pipeline.ExampleGpuFailure` | src/App.jsx:117-118 | A "fail" response with failMsg "gpu oom" ends the call with "GPU Error: gpu oom". |
| `Controller.Controller.constructor` | src/App.jsx:13-18 | The initial state: progress 0, not generating, no video, no error, empty gallery. |
| `Controller.Controller.SetProgress` | src/App.jsx:15 | `setProgressWidth`: the field takes the new value, and the value is appended to the log of every progress value set. |
| `Controller.Controller.HandleGenerate` | src/App.jsx:22-140 | The outcome is `GenerateOutcome`. A rejected request changes only the error message: no progress, no submission, no gallery change. Any other call clears the previous video. The gallery gains the result at its front and nothing else. The progress log grows by `RunTrace` and the reset. A creation request is sent only on the live path. |
| `Controller.Controller.RunDemo` | src/App.jsx:31-56 | The progress log grows by exactly 10, 35, 60, 85, 100 and the reset. The demo URL is shown and put at the front of the gallery, and nothing is submitted. |
| `Controller.Controller.RunLive` | src/App.jsx:59-140 | Exactly one payload is submitted, then the live outcome follows. The error message, video, gallery and progress log are as the live specification says. Only a finished run is reset. |
| `Controller.Controller.Abandon` | src/App.jsx:131-138 | A rejected submission shows its message and resets progress and the generating flag. |
| `Controller.Controller.PollAndConclude` | src/App.jsx:87-129 | After acceptance: progress 20, then the poll loop, then its conclusion. The progress log grows by exactly the polling trace. |
| `Controller.Controller.PollUntilDone` | src/App.jsx:89-123 | The loop ends as `RunPolls` says. Progress is set to exactly the values `RunPolls` lists (none for an unrecognised state), and the field holds the last of them. |
| `Controller.Controller.Conclude` | src/App.jsx:125-138 | An error shows its message. A success without a URL shows the "no video URL" error. A real URL sets progress 100, becomes the video and is put at the front of the gallery. Then the run is reset, unless it is still waiting. |
| `Controller.Controller.Settle` | src/App.jsx:134-138 | The deferred reset: progress 0 and not generating. |

## Left out

- HTTP: the `fetch` calls, the endpoints, the headers and the bearer key
  (`src/App.jsx:63-77`, `96-98`). They are network I/O. The model takes
  their decoded responses as inputs. A call or body decoding that throws is
  the `SubmitThrew` / `PollThrew` case.
- JSON decoding of the envelopes and of `resultJson`. The result document
  is modelled only as "decoded to a list of strings" or "did not decode".
  JSON values of a type other than the model assumes are not modelled: a
  `code` sent as a string, a `null` message, a result list whose first entry
  is not a string, or a `resultUrls` that is not a list at all (a string,
  whose `[0]` would be its first character, `src/App.jsx:112-115`). An
  absent `state` behaves like any unrecognised state string.
- `encodeURIComponent` is library code. It is passed in as a total function
  `encode`, so the model does not cover the `URIError` it raises on a lone
  surrogate.
- Timing: the 1200 ms and 4000 ms delays, and the 500 ms deferral of the
  reset. The reset is modelled as the last step of a finished run.
- The poll loop is unbounded in the program. The model reads a finite
  sequence of responses, and running out of them is the `Pending` outcome.
- The re-entrancy guard is only the disabled button (`src/App.jsx:228`). It
  is user interface, so the model does not cover calls that overlap.
- React's asynchronous state batching. The model applies each setter
  immediately, in program order.
- The `loadingMsg` strings, `console.error`, the tab navigation, the styling
  and the JSX rendering (`src/App.jsx:142-372`). The one exception is the
  "pollinations" test that picks image or video rendering.
