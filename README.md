# Teachable-Machine panels, modelled in Dafny

The application is a single browser page with three classifier panels, plus an
app shell that mounts one panel at a time:

- **images**: a camera feed, classified frame by frame on an fps gate.
- **audio**: a recorded or uploaded clip, resampled to a fixed length and classified.
- **poses**: attention, "looking" or "not looking", from the camera or an uploaded picture.

Each panel loads a Teachable Machine model through a loader that fills in
metadata defaults. It pairs the model's output probabilities with its labels
and shows them sorted best first.

This project models the sequential logic of that page:

- the fixed-length resampler and sample count of the audio panel (`Audio`);
- the prediction ranking shared by all panels (`Ranking`);
- the three loaders' strategy choice and metadata defaulting (`ModelLoader`);
- the lifecycle of each panel as a class whose methods are its event handlers
  (`Audio.AudioPanel`, `Images.ImagesPanel`, `Poses.PosesPanel`);
- the status badge lookups, the active-mode visibility and the theme and
  about toggles (`Ui`);
- the app shell's single cleanup handle, its dispatch from mode to panel and
  its keyboard map (`App`).

Devices are modelled as stream identities (`Devices`): a stream is live until
its tracks are stopped. The runtime's `predict` is a function parameter
returning the probabilities, or None when it throws. The `tf` global and the
camera's or microphone's outcome are parameters. Time arrives as the
timestamp of each event. Animation frames and timers are explicit events. A
queued frame is the `frameQueued` flag, and the audio timers are the list of
their due times.

Probabilities are `int`: only their order matters to the ranking. Samples are `real`. A JavaScript number field in metadata is a
`Field.Number`. JS's `x || d` on numbers is `OrDefault` (zero is falsy).
Where NaN matters, at the poses fps slider, it is a separate `Fps.NotANumber`
value.

Points where the code differs from what one might expect, and where the model
follows the code:

- The image loader never returns an `imageSize`, so the images panel's size
  merge never replaces 224×224 (`Images.SizeNeverReplaced`).
- The poses panel keeps `inputH`/`inputW` from the loader. Preprocessing,
  however, always resizes to 224×224, so those fields affect nothing.
- The poses panel always overwrites the loader's labels with its own two
  defaults, so the loader's `['atento','no_atento']` fallback never shows.
- The poses `targetFPS` slider value has no fallback. A value of 0 blocks
  every inference (`1000/0` is Infinity). NaN never blocks.
- A zero audio `duration` stops the recording after 4000 ms, but the clip is
  still resampled to 5 s of samples (`Audio.ZeroDurationFallbacksDisagree`).
- The '?' key clicks the about button, which *toggles* the about section
  rather than opening it.
- 'recording' and 'processing' have no entry in the status tables. The badge
  therefore shows them verbatim, on the default slate style.
- An audio auto-stop timer is never cancelled. One set by an earlier
  recording can therefore stop a later recording early.
- `stopCamera` in the poses panel stops the tracks but keeps the `stream`
  reference.

## Model

| member | source | states |
|---|---|---|
| Ranking.ProbAt | assets/panels/audio.js:182 | `probs[i] ?? 0`: output i when the model produced it, else 0 |
| Ranking.DisplayName | assets/panels/audio.js:181 | `DISPLAY_LABELS[key] ?? key`: a key in the table shows its display name, any other key shows verbatim |
| Ranking.Mapped | assets/panels/audio.js:180-182 | entry i carries label i's display name and output i, or 0 when the output is missing |
| Ranking.Insert | assets/panels/audio.js:183 | inserting into the sorted list adds exactly one entry and keeps the multiset otherwise |
| Ranking.InsertSorted | assets/panels/audio.js:183 | insertion keeps a non-increasing list non-increasing |
| Ranking.SortDesc | assets/panels/audio.js:183 | the sort `(a, b) => b.prob - a.prob` yields a non-increasing permutation of its input |
| Ranking.Rank | assets/panels/audio.js:180-183 | the ranking has one entry per label, is non-increasing, and is a permutation of the mapped entries |
| Ranking.TopThree | assets/panels/audio.js:190 | the top-3 shown are a prefix of at most three, none below any entry left out |
| Ranking.WithProbMembers | assets/panels/audio.js:183 | the entries tied at a probability are entries of the list with that probability |
| Ranking.InsertKeepsTies | assets/panels/audio.js:183 | insertion places the new entry before its equals and keeps the order among tied entries |
| Ranking.SortDescKeepsTies | assets/panels/audio.js:183 | the sort is stable: entries of equal probability keep their original order |
| Ranking.HeadIsTied | assets/panels/audio.js:183 | a list's head is among the entries tied at its own probability |
| Ranking.TiesDetermineOrder | assets/panels/audio.js:183 | two non-increasing lists with the same tied sub-sequences are equal |
| Ranking.RankKeepsTies | assets/panels/audio.js:180-183 | the ranking keeps the label order among equally probable labels |
| Ranking.RankIsTheStableSort | assets/panels/audio.js:180-183 | any non-increasing list that keeps the label order among ties is the ranking, so the stable JS sort and the model agree |
| Ranking.Best | assets/panels/audio.js:187-189 | `mapped[0]` is absent iff the list is empty; otherwise it is an entry of the list, and of a non-increasing list one with the highest probability |
| Ranking.BestIsMaximum | assets/panels/audio.js:187-189 | a best entry exists iff there are labels, is one of the mapped entries, and has the highest output of all labels |
| Ui.StatusText | assets/ui.js:27-35 | a status in the text table shows its text; any other status shows verbatim |
| Ui.StatusTextLookup | assets/ui.js:27-35 | a status shows as something other than its own key iff it is in the text table; 'ready' shows as 'OK', 'recording' and 'processing' verbatim |
| Ui.StatusTone | assets/ui.js:36-42 | the badge gets the default slate iff the status has no tone entry; otherwise it gets that entry |
| Ui.StatusToneFallback | assets/ui.js:36-42 | exactly the statuses outside the five styled ones get the default slate; 'demo' and 'recording' among them |
| Ui.BadgeOfEachStatus | assets/ui.js:26-43 | of the panels' statuses, exactly 'recording' and 'processing' show verbatim; exactly those and 'demo' are default slate; 'denied' and 'error' are rose |
| Ui.FindPanel | assets/ui.js:3 | the panel looked up by id is the first one with that id, or none carries it |
| Ui.Page.constructor | assets/ui.js:1-24 | the page holds the given panels, buttons, theme and about state, with no mode set |
| Ui.Page.SetActiveMode | assets/ui.js:1-11 | it succeeds iff a panel `panel-${mode}` exists; every panel is hidden except the first with that id, nothing else about the panels changes; on success each button is active iff its mode is `mode` and the body's mode becomes `mode`; with no such panel it throws after hiding them all, leaving the buttons and the body's mode |
| Ui.ThemeLabel | assets/ui.js:20-23 | a dark page offers "☀️ Claro", a light one "🌙 Oscuro" |
| Ui.Page.ToggleTheme | assets/ui.js:18-24 | the dark flag flips and the button text follows the new value |
| Ui.Page.ToggleAbout | assets/ui.js:13-16 | the about section's hidden flag flips |
| Ui.SameIds | assets/ui.js:2-3 | hiding or showing panels does not change which panel an id finds |
| Ui.ExactlyOneVisible | assets/ui.js:2-3 | after a successful activation exactly one panel is visible, and it carries the mode's panel id |
| ModelLoader.LoadTMImageModel | assets/modelLoader.js:4-43 | fails iff the chosen strategy fails (NoRuntime iff neither tmImage nor tf.loadLayersModel exists); tmImage is used whenever present, with labels from getClassLabels, else metadata, else []; the tf fallback takes only an array `labels` field of the document fetched from `basePath + '/metadata.json'` |
| ModelLoader.ImageLoaderPrefersTeachableMachine | assets/modelLoader.js:14-22 | with tmImage present the loader uses it even when tf is present too, and fetches nothing |
| ModelLoader.LoadTMAudioModel | assets/modelLoader.js:48-78 | throws iff tf or loadLayersModel is missing or loading fails; each of labels, sampleRate and duration is adopted from the document fetched from `basePath + '/metadata.json'` only when of the right type, else [], 16000 and 5.0 |
| ModelLoader.AudioDefaultsWithoutMetadata | assets/modelLoader.js:61-75 | when `basePath + '/metadata.json'` cannot be read every default stays |
| ModelLoader.AudioMetadataAdopted | assets/modelLoader.js:65-72 | when `basePath + '/metadata.json'` holds well-typed fields they are all adopted |
| ModelLoader.LoadTMPoseModel | assets/modelLoader.js:83-117 | throws iff tf or loadLayersModel is missing or loading fails; the labels are never empty, falling back to ['atento','no_atento']; imgHeight and imgWidth are adopted from `basePath + '/metadata.json'` only when numeric, else 160 |
| ModelLoader.ModelUrls | assets/modelLoader.js:5-6 | every loader that succeeds loads its model from `basePath + '/model.json'` |
| ModelLoader.MetadataUrlOnly | assets/modelLoader.js:28-101 | the only document a loader fetches (lines 28, 66 and 101) is `basePath + '/metadata.json'`: fetches that agree on it give every loader the same result |
| Audio.NumSamples | assets/panels/audio.js:163-164 | the sample count is the floor of rate times duration, a zero rate or duration replaced by 16000 or 5.0 |
| Audio.DefaultNumSamples | assets/panels/audio.js:163-164 | the default configuration, and an all-zero one, give 80000 samples |
| Audio.AutoStopDelay | assets/panels/audio.js:273 | the auto-stop fires after duration×1000 ms, or 4000 ms when the duration is 0 |
| Audio.ZeroDurationFallbacksDisagree | assets/panels/audio.js:163-164 | a zero duration stops after 4 s but still resamples to 5 s of samples |
| Audio.SourceIndex | assets/panels/audio.js:121 | `floor(i*len/targetLength)` is below `len` and is the floor of the exact quotient |
| Audio.Resampled | assets/panels/audio.js:116-125 | the resampled clip has exactly the target length |
| Audio.ResampleToFixedLength | assets/panels/audio.js:116-125 | the loop fills a new array of the target length with the resampled clip |
| Audio.ResampledSamples | assets/panels/audio.js:119-123 | an empty input gives all zeros; otherwise sample i is the input at the source index |
| Audio.SourceIndexIdentity | assets/panels/audio.js:121 | at equal lengths the source index is the index itself |
| Audio.ResampleIdentity | assets/panels/audio.js:116-125 | resampling to the input's own length returns the input |
| Audio.Inference | assets/panels/audio.js:154-196 | succeeds iff stft exists, a model is loaded and prediction succeeds; the result is the ranking of the resampled clip's outputs with the display labels |
| Audio.RemoveAt | assets/panels/audio.js:274-279 | exactly one occurrence of the fired timer leaves the pending list and every other timer stays |
| Audio.ClipInference | assets/panels/audio.js:245-253 | a clip that fails to decode gives DecodeFailed; otherwise it succeeds iff stft exists, a model is loaded, the sample count is non-negative and prediction succeeds, with the non-increasing ranking of the resampled clip |
| Audio.AudioPanel.constructor | assets/panels/audio.js:31-38 | the panel starts with the three default classes, the default config, no model, no stream and no recording |
| Audio.AudioPanel.OnLoaded | assets/panels/audio.js:337-352 | a load replaces the labels only with a non-empty list and always replaces the config; a failure sets 'error' and disables the buttons |
| Audio.AudioPanel.RunInferenceOnBuffer | assets/panels/audio.js:154-196 | returns the inference of the first channel with the panel's model, labels and config |
| Audio.AudioPanel.StartRecording | assets/panels/audio.js:199-280 | does nothing while recording; without a model sets 'error' and starts nothing; on a denied microphone sets 'denied'; otherwise takes a new stream, starts the recorder and the live view, clears the prediction and sets the auto-stop timer |
| Audio.AudioPanel.Begin | assets/panels/audio.js:216-272 | a granted microphone becomes the held stream, the recorder records and the auto-stop timer is pending |
| Audio.AudioPanel.OpenStream | assets/panels/audio.js:209-216 | a fresh stream becomes the held one and is live |
| Audio.AudioPanel.StartRecorder | assets/panels/audio.js:270-279 | the recorder and live view start and one timer is added |
| Audio.AudioPanel.StopRecording | assets/panels/audio.js:282-287 | acts only when the recorder is recording and `recording` holds: status 'processing' and the stop queued |
| Audio.AudioPanel.AutoStopFires | assets/panels/audio.js:274-279 | the timer leaves the list; it stops the recorder only when one is still recording |
| Audio.AudioPanel.OnStop | assets/panels/audio.js:230-262 | the clip's inference sets 'ready' and the prediction, or 'error'; whatever happened the tracks are stopped, the stream dropped and `recording` cleared |
| Audio.AudioPanel.Finish | assets/panels/audio.js:254-261 | the `finally` block releases the stream and clears `recording` |
| Audio.AudioPanel.Classify | assets/panels/audio.js:245-253 | status and prediction follow the clip's inference |
| Audio.AudioPanel.Upload | assets/panels/audio.js:301-328 | without a file or a model nothing happens; otherwise the prediction is cleared and the clip's inference sets 'ready' and the ranking, or 'error' |
| Audio.AudioPanel.Teardown | assets/panels/audio.js:355-358 | the cleanup stops a running recorder and the live view, leaving the devices released once `onstop` runs |
| Images.SliderFps | assets/panels/images.js:197-200 | the slider's number, or 30 when it is 0 or not a number; never 0 |
| Images.MergeSize | assets/panels/images.js:44-46 | the loaded size replaces the current one only when both sides are non-zero |
| Images.SizeNeverReplaced | assets/panels/images.js:44-46 | the image loader's result carries no size, so the default size stays |
| Images.Inference | assets/panels/images.js:97-145 | a ranking is published iff a model and tf exist and prediction succeeds; it is the plain ranking of the outputs |
| Images.InferenceShowsLabels | assets/panels/images.js:132-135 | a published ranking has one entry per label, verbatim, non-increasing |
| Images.GateKeepsSpacing | assets/panels/images.js:159-160 | a gated inference keeps every pair of successive inferences at least the interval apart |
| Images.ImagesPanel.constructor | assets/panels/images.js:23-31 | the panel starts with the default classes and size, fps 30, no stream, not running, not frozen |
| Images.ImagesPanel.OnLoaded | assets/panels/images.js:36-55 | success keeps the model, replaces the labels only with a non-empty list, merges the size and hides the badge; failure sets 'demo', shows the badge and leaves the model null |
| Images.ImagesPanel.StartCam | assets/panels/images.js:60-72 | a denied camera sets 'denied'; a stream that fails to play is kept but sets 'denied'; success shows the video and starts the loop |
| Images.ImagesPanel.OpenStream | assets/panels/images.js:62 | a fresh stream becomes the held one and is live |
| Images.ImagesPanel.StartLoop | assets/panels/images.js:150-153 | the loop captures `1000/fps` once, starts at `last = 0` and queues a frame |
| Images.ImagesPanel.StopCam | assets/panels/images.js:75-82 | the loop stops, the frame is cancelled, every track is stopped and the stream dropped; a second call changes nothing |
| Images.ImagesPanel.Infer | assets/panels/images.js:97-145 | the prediction becomes the inference on the current canvas when there is one |
| Images.ImagesPanel.OnFrame | assets/panels/images.js:154-164 | when not running nothing happens; otherwise the canvas is redrawn unless frozen, inference runs iff `now - last >= intervalMs` (then `last = now`), and the next frame is queued |
| Images.ImagesPanel.Gate | assets/panels/images.js:159-162 | inference fires iff the interval has passed, keeping successive inferences spaced |
| Images.ImagesPanel.DrawFromVideo | assets/panels/images.js:84-92 | the canvas takes the video frame when the video has data |
| Images.ImagesPanel.Fire | assets/panels/images.js:160 | the firing time becomes the gate's last time |
| Images.ImagesPanel.ToggleFreeze | assets/panels/images.js:172-193 | flips `frozen`; freezing hides the video; unfreezing with a stream shows it; without one it starts the camera |
| Images.ImagesPanel.SetFps | assets/panels/images.js:197-200 | fps becomes the slider's value with fallback 30 |
| Images.ImagesPanel.Upload | assets/panels/images.js:202-220 | without a file nothing happens; once the picture loads the camera is off, the picture drawn, `frozen` set and exactly one inference run on the picture |
| Images.ImagesPanel.ShowPicture | assets/panels/images.js:209-216 | the picture replaces the video on the canvas and the frame is frozen |
| Images.ImagesPanel.Teardown | assets/panels/images.js:230-232 | the cleanup releases the camera |
| Poses.Blocked | assets/panels/poses.js:96 | at rate 0 every call is blocked, at NaN none is, otherwise a call passes iff `now - last >= 1000/fps` |
| Poses.GateKeepsLog | assets/panels/poses.js:95-97 | an inference the gate lets through extends a log in which every inference passed the gate at its own rate |
| Poses.GatedLogSpacing | assets/panels/poses.js:95-97 | no inference ran at rate 0, and at a positive rate each one is at least `1000/fps` after the previous |
| Poses.FrameInference | assets/panels/poses.js:102-122 | inference publishes a ranking iff prediction succeeds and there are labels |
| Poses.FrameInferenceRanks | assets/panels/poses.js:109-115 | the published ranking has one entry per label by its display name, is a non-increasing permutation, and its head has the highest output |
| Poses.PoseRanking | assets/panels/poses.js:5-14 | with the two pose labels the ranking is exactly both display names, the more probable first, "Mirando 👀" first on a tie |
| Poses.PosesPanel.constructor | assets/panels/poses.js:29-49 | the panel starts with the two default labels, 224×224, `useCam` true, not running, and the slider's fps (15 without a slider) |
| Poses.PosesPanel.InferFrame | assets/panels/poses.js:90-126 | nothing happens without a model, a running camera or tf, or inside the interval; otherwise `lastInferTime = now` and the ranking is shown, or 'error' when inference throws |
| Poses.PosesPanel.DrawFromVideo | assets/panels/poses.js:129-133 | the canvas takes the video frame when the video has data |
| Poses.PosesPanel.LoopBody | assets/panels/poses.js:135-142 | a running loop draws, infers through the gate, and queues its next frame |
| Poses.PosesPanel.OnFrame | assets/panels/poses.js:135-142 | once `running` is false the frame does nothing and queues no other; while running it draws and infers |
| Poses.PosesPanel.OpenStream | assets/panels/poses.js:151-155 | a fresh stream becomes the held one and is live |
| Poses.PosesPanel.StartCamera | assets/panels/poses.js:145-168 | without tf nothing happens; a denied camera sets 'denied' and leaves `running` alone; success sets `running`, `useCam`, 'ready' and runs the loop |
| Poses.PosesPanel.RunCamera | assets/panels/poses.js:158-163 | the camera is in use and running and the first frame is drawn and inferred |
| Poses.PosesPanel.StopCamera | assets/panels/poses.js:170-175 | every track stops and `running` becomes false, while the stream reference is kept |
| Poses.PosesPanel.OnLoaded | assets/panels/poses.js:199-219 | a load keeps the model, forces the two default labels, takes the input size with fallback 160, and starts the camera; a failure sets 'error' |
| Poses.PosesPanel.Adopt | assets/panels/poses.js:203-212 | the loader's labels are replaced by the defaults and the input side falls back to 160 |
| Poses.PosesPanel.SetFps | assets/panels/poses.js:45-48 | the target fps becomes the slider's value, re-read by every later inference |
| Poses.PosesPanel.Upload | assets/panels/poses.js:178-185 | without a file nothing happens; otherwise the camera stops and `useCam` becomes false |
| Poses.PosesPanel.OnPictureLoaded | assets/panels/poses.js:187-192 | the picture is drawn; since the camera is stopped the inference after it does nothing |
| Poses.PosesPanel.Teardown | assets/panels/poses.js:221-224 | the cleanup stops the camera |
| App.PanelFor | assets/app.js:10-12 | 'images' goes to the images panel, 'audio' to the audio panel, every other mode to the poses panel |
| App.DispatchIsInverse | assets/app.js:10-12 | each panel's mode dispatches back to it, and a mode round-trips iff it is one of the three |
| App.KeyCommand | assets/app.js:23-30 | a key in an input or textarea does nothing; a mounted mode is one of the three |
| App.KeyMap | assets/app.js:25-29 | '1', '2', '3' mount images, audio, poses; 'd'/'D' flip the theme; '?' flips about; every other key does nothing |
| App.NumberKeysMountTheirPanel | assets/app.js:25-27 | each number key mounts the panel whose mode it names |
| App.RunCleanup | assets/app.js:8 | a panel's cleanup leaves it released |
| App.Initialise | assets/app.js:10-12 | the dispatched panel is a new one, as its init function leaves it |
| App.Shell.constructor | assets/app.js:33 | the page starts with nothing mounted and then mounts 'images' |
| App.Shell.Mount | assets/app.js:7-13 | the old cleanup runs exactly once and is released; every panel is hidden but the mode's; it returns whether that panel exists; if so the body's mode and the active button follow the mode, exactly one panel is visible and a fresh, just-initialised panel of the dispatched kind becomes the only cleanup; if not nothing is mounted and the buttons and body mode are kept; re-mounting the same mode tears down and re-initialises |
| App.Shell.Attach | assets/app.js:10-12 | the new panel's cleanup becomes the handle |
| App.Shell.Unmount | assets/app.js:8 | any existing cleanup runs once and the handle is cleared |
| App.Shell.Activate | assets/app.js:9 | every panel is hidden but the mode's; when it exists the body's mode and the active button follow the mode and exactly one panel is visible; otherwise buttons and body mode are kept and nothing is mounted |
| App.Shell.NavClick | assets/app.js:18-21 | a click outside a mode button changes nothing; on one it mounts that button's mode, with everything Mount promises |
| App.Shell.HandleKey | assets/app.js:23-30 | a number key mounts its mode, with everything Mount promises, and keeps the theme and about state; 'd' flips the theme and sets the button text to match, keeping panels, buttons, body mode, about state and the mounted panel; '?' flips the about section, keeping everything else |

## Left out

- Tensor work is left out: spectrogram, resizing, `fromPixels`, `predict` and `dispose`. These are external floating-point runtime calls. `predict` is a parameter that returns the probabilities or fails.
- Device and media I/O is a parameter or an identity. This covers `getUserMedia`, `MediaRecorder`, `AudioContext`/`decodeAudioData`, `Blob`, `Audio.play`, `fetch` and the test clips' playback. `assets/media.js` is not part of this model.
- Canvas drawing is reduced to which content the canvas shows. This covers `drawImage`, `resizeCanvases`, `clearOverlay`, `drawWaveFloat` and the live oscilloscope animation. Pixel arithmetic against the DOM is out of scope.
- `fmt` and `renderTopK` are left out: they are number formatting and DOM construction. So are latency readouts, button and fps label texts, Tailwind class strings beyond which tone a badge gets, and console logging.
- Concurrency is not modelled. Each event handler runs to completion. The un-awaited `infer()` of the images loop may overlap another call in a browser, and the model does not claim it cannot. Results that arrive after a panel is unmounted are not modelled either.
- The `|| 0` in the resampler is left out: the source index is always in range, and samples are reals, never NaN.
- Floating-point precision is left out: samples are `real` and probabilities `int`. So is NaN, except for the poses fps slider and the images fps slider's `|| 30`.
- `getClassLabels()` throwing and non-string label arrays are not distinguished from a load failure or from labels.
- The panels' own look-ups of their elements by id (video, canvas, buttons, slider, badge) are assumed to find them; the page's markup is a parameter. A missing `panel-${mode}` in `setActiveMode` is modelled.
- Ranking.DisplayName: a label key that names an inherited `Object.prototype` member (such as "constructor" or "toString") finds that member in JavaScript, where the model shows the key verbatim.
- App.Shell.Mount: the `try/catch` around the old cleanup is not modelled, because no panel's cleanup throws.
- Poses.PosesPanel.OnLoaded: a camera stream that fails to play is kept but not used, and it stays live until `stopCamera`. The contract states only the status and that no loop runs.
