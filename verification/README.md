# Cell-recognition demo: verified model of the page logic

The page lets a user upload a microscopy image, pick one of three mock
classifiers ("knn-cosine", "knn-cubic", "naive-bayes") and see a fabricated
per-category cell count (categories A–D) as animated counters, with random
markers drawn over the image. This project models the logic of `app.js` that
does not draw to the page:

- `mockClassify`: a table from classifier id to four count ranges (module `Classify`);
- `generateCellRegions`: counts to a flat list of markers (module `Regions`);
- the per-frame value of `animateCount` (module `Easing`);
- the upload, remove, analyze and resize handlers as a state machine (module `App`).

Every `Math.random()` is an explicit oracle input: a real `u` in [0, 1)
(the subset type `Oracle.Random`). `Math.floor(Math.random() * n) + k` is `floor(u * n) + k`.
Positions, sizes and easing use Dafny `real`, an idealisation of JavaScript
doubles. A marker's rotation is kept as a fraction of a full turn, because
Dafny has no π. The JavaScript value of the rotation is `rotation * 2 * Math.PI`.

Modules: `Wrappers` (Option), `Oracle` (the random-value type), `Counts` (the counts object, its key order and
sums), `Classify`, `Regions`, `Easing`, `App`.

The state machine (`App.Step`) keeps the values the handlers read and write:
- `fileInput.files[0]`;
- the preview image;
- `previewContainer.style.display`, with three values: never set, `block` or `none`;
- whether analyze is enabled;
- the classifier of the pending run (the page is busy while it is set);
- the results panel;
- `lastRegions`.

An analyze run has two steps. `AnalyzeClick` covers the part before the
`await`. `AnalyzeFinish` covers the part after it: either the `catch` path or
the success path. A picker choice counts only while the upload area can open
the picker (app.js:256). When it does, the browser itself stores the chosen
file in `fileInput.files`, even a non-image one.

Three behaviours of the code worth stating:
- Selecting a new image does not hide the results panel or reset the counters.
  `displayPreview` only clears the overlay and `lastRegions` (app.js:292-301).
  `App.SelectImageEnablesAnalyze` states that the panel is left as it was.
- Marker positions are half-open: x lies in [40, W − 40), not the closed
  interval. When W < 80 (an image narrower than both margins), x lies in
  (W − 40, 40]; when W = 80 it is exactly 40 (`Regions.Place`).
- The resize handler redraws whenever `lastRegions` is set and the preview's
  display is not `'none'`. That includes a display that was never set
  (app.js:385).

The initial state (`App.Initial`) assumes the page's markup starts with the
analyze button disabled. The markup is not part of this model.

## Model

| member | source | states |
|---|---|---|
| Classify.Sample | app.js:47-66 | one count expression `floor(random·n)+k` always lies in the inclusive interval [k, k+n−1] |
| Classify.ProfileOf | app.js:44-68 | defines the classifier switch: the (width, low) pair of each count expression per known id, and no profile for any other id |
| Classify.SampleChosenBySlice | app.js:47-66 | a count value v is drawn exactly by the random values in [(v−k)/n, (v−k+1)/n), so every value of the interval is equally likely |
| Classify.SampleReaches | app.js:47-66 | every value of [k, k+n−1], both ends included, is produced by some random value |
| Classify.MockClassify | app.js:37-73 | knn-cosine gives A∈[15,39], B∈[10,29], C∈[5,19], D∈[2,11]; knn-cubic gives A,B,C∈[8,27], D∈[5,19]; naive-bayes gives A,B∈[5,19], C∈[15,39], D∈[10,29]; any other id yields all zeros and no error |
| Classify.MockClassifyReachesProfile | app.js:44-67 | the stated ranges are tight: for each known id, every combination of counts inside its literal intervals (e.g. knn-cosine A∈[15,39], …, D∈[2,11]) is produced by some four random values |
| Regions.Place | app.js:84-86 | a coordinate lies in [40, dim−40) when dim > 80, is 40 when dim = 80, and lies in (dim−40, 40] when dim < 80 |
| Regions.ShapeIndex | app.js:78-92 | the shape index is a valid index into the five shapes, and index i is chosen exactly when 5u falls in [i, i+1) |
| Regions.ShapeChosenByFifth | app.js:78-92 | a marker gets shape i exactly when its random value lies in [i/5, (i+1)/5), so each of the five shapes is equally likely |
| Regions.MakeRegion | app.js:83-106 | a marker has the loop's category; it lies inside the 40-pixel margins of an image larger than both margins; its size is in [25,70), its aspect ratio in [0.7,1.3) and its rotation within one turn |
| Regions.LayoutSpan | app.js:80-82 | marker j has category c exactly when j lies in c's block, which starts after the earlier keys' counts and is counts[c] long |
| Regions.LayoutCounts | app.js:80-82 | the emitted category sequence holds each category exactly counts[c] times |
| Regions.GenerateRegions | app.js:76-111 | the marker list has length A+B+C+D, and marker j carries the j-th category of the key-order layout |
| Regions.GenerateCountsPerCategory | app.js:80-108 | exactly counts[c] markers carry category c, for every category |
| Regions.GenerateGroupedInOrder | app.js:80-107 | markers are grouped by category in key order A, B, C, D; within a category they follow the loop index, each built from the draw of its position |
| Regions.GenerateWithinBounds | app.js:78-96 | every generated marker satisfies the position, size, aspect-ratio and rotation bounds |
| Regions.GenerateCellRegions | app.js:76-111 | the nested loops (keys in order, `count` pushes per key) build exactly the reference marker list |
| Easing.EaseOutShape | app.js:239 | on [0,1] the cubic ease-out runs from 0 to 1 and never decreases |
| Easing.EasedValueBoundedMonotone | app.js:236-240 | for target ≥ 0 and p∈[0,1], the floored eased value lies in [0, target], never decreases as p grows, and equals target at p = 1 |
| Easing.AsWrittenShowsNegative | app.js:234-242 | as written, a frame whose timestamp is 1 ms before the start shows −1 for a target of 10 |
| Easing.FrameAsWritten | app.js:234-249 | defines one `update` call as written: the unclamped progress, the floored eased value, and the snap to the target once progress reaches 1 |
| Easing.Progress | app.js:236 | the clamped progress lies in [0,1], reaches 1 exactly once the duration has elapsed, and equals the source's progress for every non-negative elapsed time |
| Easing.UpdateFrame | app.js:234-249 | a frame shows a value in [0, target]; it schedules another frame exactly while elapsed < 1500 ms; the frame that stops leaves exactly the target displayed |
| Easing.UpdateFrameMatchesSource | app.js:234-249 | for timestamps at or after the start, the clamped frame is the source's frame |
| Easing.UpdateFrameMonotone | app.js:234-249 | a later frame never shows a smaller value |
| Easing.Animate | app.js:229-252 | with clamped progress, the animation shows one value per frame timestamp, each that frame's value, for every timestamp before 1500 ms and for the first one at or after it, where it stops |
| Easing.AnimateAsWritten | app.js:229-252 | defines the page's frame chain as written: one unclamped frame value per timestamp until the first frame that stops |
| Easing.AnimateMatchesAsWritten | app.js:229-252 | for frame timestamps at or after the start, the clamped animation equals the page's animation as written, value for value |
| Easing.AnimateMonotone | app.js:244-251 | with frame timestamps in order, the displayed counter never goes down |
| Easing.AnimateEndsAtTarget | app.js:244-248 | once a timestamp reaches 1500 ms, the animation stops at the first such frame, the last value shown is exactly the target, and every value shown lies in [0, target] |
| App.Step | app.js:254-378 | defines the page's response to each event: picker choice, drop, remove, analyze click and the end of a run |
| App.ShowPreview | app.js:292-301 | defines `displayPreview`'s onload effect: show the image, enable analyze, forget the cached markers |
| App.ResizeRedraw | app.js:382-389 | defines the debounced resize handler as the marker list it redraws, if any |
| App.ResizeRedrawsOnlyCachedMarkers | app.js:382-389 | a resize never draws a new random sample: it redraws the cached markers or nothing, and nothing while no markers are cached or the preview is hidden |
| App.DropNonImageChangesNothing | app.js:278-287 | dropping a file whose type does not start with `image/`, or dropping no file, changes nothing |
| App.PickNonImageChangesNothing | app.js:255-266 | a non-image picker choice changes nothing the handlers own; only the browser's file list takes the choice, and only when the picker can open |
| App.SelectImageEnablesAnalyze | app.js:261-303 | selecting an image (by drop, or by picker when it can open) previews it, enables analyze and clears `lastRegions`, and leaves the results panel as it was |
| App.RemoveResets | app.js:306-316 | remove returns to Empty: no file, no preview, analyze disabled, results hidden, no cached markers, and a resize redraws nothing |
| App.AnalyzeWithoutFileIsNoop | app.js:319-320 | analyze with no file, or on the disabled button, is a no-op |
| App.AnalyzeStartIsBusy | app.js:319-330 | starting a run makes the page busy with the chosen classifier, disables analyze and hides old results |
| App.AnalyzeFinishReleases | app.js:332-378 | after any run, success or error, the page is not busy and analyze is enabled again; an error changes no results and no cached markers |
| App.AnalyzeFinishShowsCounts | app.js:353-366 | a successful run shows the results panel with the classifier's display name, the counts `mockClassify` produced, and a total counter whose target is A+B+C+D |
| App.AnalyzeFinishCachesMarkers | app.js:336-350 | with the image loaded, a successful run caches exactly counts[c] markers of each category (A+B+C+D in all), and a resize redraws that same list |
| App.KnnCosineEndToEnd | app.js:319-366 | a "knn-cosine" run that succeeds shows "KNN Cosine" and counts A∈[15,39], B∈[10,29], C∈[5,19], D∈[2,11], with the total equal to their sum; afterwards analyze is enabled and the page is not busy |
| App.InitialInv | app.js:33-34 | the initial page satisfies the invariant: nothing previewed, analyze disabled |
| App.StepKeepsInv | app.js:254-378 | each handler keeps the invariant for non-interleaved events; the invariant says analyze is enabled exactly when an image is previewed and no run is pending, markers are cached only while a preview is shown, and the markers match the counters category by category |
| App.ResizeUnderInv | app.js:385 | for non-interleaved use, a resize redraws exactly when markers are cached, and only while the preview is shown |
| App.StaleFinishAfterRemove | app.js:306-377 | a remove while a run is pending, followed by that run's completion, leaves analyze enabled with no file and no preview |

## Findings

| source | as written | input that shows it | evidently intended | confidence | as-written member | corrected member |
|---|---|---|---|---|---|---|
| app.js:236 | `progress = Math.min(elapsed / duration, 1)` is clamped above but not below, so a negative elapsed time gives a negative eased value | a frame timestamp 1 ms earlier than `startTime` (elapsed = −1) with target 10 shows −1 | progress clamped to [0, 1], so the counter shows values in [0, target] only | low; not executed; needs a frame timestamp earlier than the `performance.now()` taken at start | Easing.AsWrittenShowsNegative | Easing.UpdateFrame |

## Left out

- DOM access, `FileReader`, the drag-over styling, `alert`, `console.error` and `scrollIntoView`: these are browser input and output with no logic of their own.
- `displayPreview` is asynchronous (`reader.onload`). The model applies its effect when the image is selected.
- `drawShape` and `drawCellRegions` (app.js:113-226): canvas drawing, scale factors, the trigonometry of polygon and star vertices, and the polygon side count resampled at draw time. These are floating-point graphics output. A redraw is modelled as the marker list it draws (`App.ResizeRedraw`).
- The `img.onload` deferral. When the image has not loaded at the end of a run, `App.Step` leaves `lastRegions` as it was; the markers the page would generate later are not modelled. `App.Sequential` assumes that an image which markers were generated for is still loaded at the next run.
- The `setTimeout` delay of 2–3 s in `mockClassify`, `requestAnimationFrame` scheduling and the 250 ms resize debounce: these are timing concerns. Frame timestamps are parameters of `Easing.Animate`.
- Easing.Animate: built on the clamped frame `Easing.UpdateFrame`, so it and the lemmas about it (`Easing.AnimateMonotone`, `Easing.AnimateEndsAtTarget`) describe the corrected animation; `Easing.AnimateMatchesAsWritten` shows it equals the page's animation whenever no frame timestamp precedes the start.
- StepKeepsInv: the invariant relates the cached markers to the counters and to a preview being shown, not to which image is previewed; the state does not record the image the markers were generated for, since the page keeps no such link.
- Interleaving a remove, a new upload or a second click with a pending run. The handlers are modelled as written, and `App.StaleFinishAfterRemove` shows one such interleaving. The invariant (`App.StepKeepsInv`) is stated for non-interleaved use only. `App.State` holds at most one pending run.
- A page where no classifier radio button is checked (`querySelector(...)` returning null at app.js:322). The model takes the selected id as given.
- The `catch` path is modelled as an error raised before any result is written. An error thrown later in the `try` block could leave `lastRegions` already set.
- `Math.random` itself, and IEEE double rounding: random values are oracle reals in [0, 1), and arithmetic is exact over `real`.
- Regions.GenerateGroupedInOrder: "no marker has a category outside the keys of `counts`" holds by construction, because `Counts.Category` has exactly the four keys. It is not stated as a separate property.
