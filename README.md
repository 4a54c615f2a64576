# Image background remover: session engine

A Dafny model of the session logic of the `ImageBackgroundRemoverTool`
React component. The user picks an image file, which gets an object URL.
The component then loads the external `removeBackground` function lazily,
caches it once a load succeeds (a failed load leaves nothing cached, so the
next run loads it again), and runs the function with a progress callback. The resulting
cut-out gets its own object URL, and the user can download it under a
derived file name. A reset revokes the URLs and clears the state.

Modules:

- `Wrappers` (`wrappers.dfy`): `Option`, for the component's nullable fields.
- `ObjectUrls` (`object_urls.dfy`): the browser's object-URL table. `Create`
  models `URL.createObjectURL` and `Revoke` models `URL.revokeObjectURL`.
- `Progress` (`progress.dfy`): the percentage computed from one progress
  report (`Math.round`), the `max` merge, and what a run of reports does.
- `ExportName` (`export_name.dfy`): the download name. It models the regular
  expression `\.[^/.]+$`, the `"image"` fallback and the `-no-bg.png` suffix.
- `SessionState` (`session_state.dfy`): the `State` record and the session
  as a value (`Machine`: state, cached function, URL table). There is one
  transition per event (`Step`), the invariant `WellFormed`, and the lemmas
  about the session.
- `Session` (`session.dfy`): the class `ImageBackgroundRemoverTool`. Its
  fields are the state's fields, `removeBgFnRef` and the URL table. Its
  handlers update the fields in place, and each is proved to perform
  `Step` for its event. `processImage` is split at its await points:
  `BeginProcess`, `ModelLoaded`, `OnProgress`, `SegmentResolved` and
  `ProcessFailed`.

The external calls are inputs of the handlers. The loaded function is an
opaque `Segmenter` token. A segmentation result is a `Blob`. A rejection is
the thrown message. The browser's URL table is a field of the session, so
allocation and revocation can be tracked.

Behaviour worth noting:

- Nothing guards the continuations of `processImage` against a newer
  session. A result or failure that arrives after a reset is merged into the
  fresh session (`LateResultAfterResetIsApplied`,
  `LateFailureAfterResetIsApplied`, `LateResultScenario`). This is a property
  of the handlers. The page shows no reset button while the session is busy,
  so the rendered page never issues such a reset.
- The progress is `max(progress, pct)`. `pct` is at most 100 while reports
  stay within their totals. It can exceed 100 when `current > total`, once
  `current/total` reaches about 1.005 (`Progress.PercentAboveTotal`).
- A non-image file only sets `error`. The status stays what it was.
- Choosing an image does not revoke the URLs the session already holds
  (`ReplacingImageLeaksUrl`). `NoLeakWhenGuarded` proves that no URL leaks
  if an image is chosen only while the session holds no URL at all, and a
  cut-out arrives only while none is held. The page's own guard is weaker:
  it shows the upload area whenever `originalUrl` is null. After a late
  cut-out lands on a reset session, `originalUrl` is null but the cut-out
  URL is still held. Choosing an image then leaks that URL
  (`LateResultThenChoiceLeaksUrl`). The rendered page never reaches that
  state, because it never issues the reset.

## Model

| member | source | states |
|---|---|---|
| `ObjectUrls.Create` | components/ImageBackgroundRemoverTool.tsx:131 | the new URL is the next one minted, so it was never handed out before (not even one since revoked); every live URL is older, and the live set gains exactly it |
| `ObjectUrls.Revoke` | components/ImageBackgroundRemoverTool.tsx:118-119 | the URL stops being live, nothing else changes, and revoking a URL that is not live is a no-op |
| `ObjectUrls.RevokeIfSet` | components/ImageBackgroundRemoverTool.tsx:118-119 | a null field revokes nothing, a set field revokes exactly its URL |
| `ObjectUrls.CreateTwiceDistinct` | components/ImageBackgroundRemoverTool.tsx:185 | the upload URL and the cut-out URL are distinct, and neither was live before |
| `ObjectUrls.RevokeIdempotent` | components/ImageBackgroundRemoverTool.tsx:118-119 | a second revocation of the same URL changes nothing |
| `Progress.Percent` | components/ImageBackgroundRemoverTool.tsx:179 | with no total the percentage is 0; otherwise it is the nearest integer to 100·current/total, halves rounded up, and lies in 0..100 when 0 ≤ current ≤ total |
| `Progress.Merge` | components/ImageBackgroundRemoverTool.tsx:180 | the merged progress is at least the old progress and the new percentage, and equals one of them |
| `Progress.MergeAllIsMaximum` | components/ImageBackgroundRemoverTool.tsx:178-181 | after any run of callbacks the progress is the maximum of its start and every reported percentage |
| `Progress.MergeAllMonotone` | components/ImageBackgroundRemoverTool.tsx:178-181 | the progress after a prefix of the reports is never above the progress after all of them |
| `Progress.MergeAllBounded` | components/ImageBackgroundRemoverTool.tsx:179-180 | reports within their totals never push the progress above 100 |
| `Progress.PercentExamples` | components/ImageBackgroundRemoverTool.tsx:179 | worked reports: 1 of 2 is 50, 1 of 3 is 33, the end points give 0 and 100, a zero total gives 0 |
| `ExportName.ExtensionStart` | components/ImageBackgroundRemoverTool.tsx:197 | the backward scan finds the index where `\.[^/.]+$` matches, or none exactly when the expression matches nowhere |
| `ExportName.ExtensionUnique` | components/ImageBackgroundRemoverTool.tsx:197 | the expression can match at only one index |
| `ExportName.StripExtension` | components/ImageBackgroundRemoverTool.tsx:197 | the result is a prefix of the name; where the expression matches, the name is cut exactly there, and otherwise it is kept whole |
| `ExportName.FileName` | components/ImageBackgroundRemoverTool.tsx:197-198 | the name always ends in `-no-bg.png`, and its base is `image` or a non-empty prefix of the original name |
| `ExportName.FileNameCharacterised` | components/ImageBackgroundRemoverTool.tsx:197-198 | a name with an extension loses exactly that extension; a name without one is kept whole; an empty base becomes `image` |
| `ExportName.FileNameKeepsInnerDots` | components/ImageBackgroundRemoverTool.tsx:197-198 | `a.b.c` gives `a.b-no-bg.png` |
| `ExportName.FileNameFallsBack` | components/ImageBackgroundRemoverTool.tsx:197-198 | `.png` and a missing file both give `image-no-bg.png` |
| `ExportName.FileNameWithoutExtension` | components/ImageBackgroundRemoverTool.tsx:197-198 | a trailing dot, or a dot before `/`, is kept |
| `SessionState.ErrorText` | components/ImageBackgroundRemoverTool.tsx:189 | the shown error is never empty: it is the thrown message, or the load-failure text when that message is empty |
| `SessionState.DownloadName` | components/ImageBackgroundRemoverTool.tsx:193-198 | no download without a cut-out; otherwise the original name loses the extension the expression matches, falls back to `image` when that leaves nothing or there is no file, and gets `-no-bg.png` |
| `SessionState.Run` | components/ImageBackgroundRemoverTool.tsx:116-191 | any interleaving of handler calls and settlings keeps the session well formed |
| `SessionState.StepPreservesWellFormed` | components/ImageBackgroundRemoverTool.tsx:116-191 | every event keeps these true: every URL the state holds is live, the two URLs differ, a file comes with its URL, a blob with its URL, and progress is non-negative |
| `SessionState.ChooseFileCases` | components/ImageBackgroundRemoverTool.tsx:124-141 | a null file is a no-op; a non-image sets only `error` and creates no URL; an image gets one new URL as `originalUrl` with `ready`, progress 0 and all else cleared |
| `SessionState.ResetReleasesEverything` | components/ImageBackgroundRemoverTool.tsx:116-122 | reset revokes exactly the URLs the state holds, leaves none of them live, returns the initial state and keeps the cached function |
| `SessionState.ProgressOnlyRises` | components/ImageBackgroundRemoverTool.tsx:178-181 | a callback changes only the progress, never lowers it and lifts it to at least the reported percentage |
| `SessionState.CallbacksMergeProgress` | components/ImageBackgroundRemoverTool.tsx:178-181 | a run of callbacks sets the progress to the merge of all reports and changes nothing else |
| `SessionState.ProcessNeedsImage` | components/ImageBackgroundRemoverTool.tsx:161 | without `originalUrl` or `originalFile`, `processImage` changes nothing and awaits nothing |
| `SessionState.SuccessPath` | components/ImageBackgroundRemoverTool.tsx:160-187 | the success path goes `downloading-model`/1 with the error cleared, then `processing`/5, then at least 5 during callbacks, then `done`/100 with the blob under one new URL; the original image is untouched and the function is cached |
| `SessionState.FailureKeepsEverythingElse` | components/ImageBackgroundRemoverTool.tsx:188-189 | a failure sets `error` status and the message, or the fallback text, and changes nothing else |
| `SessionState.FailedLoadIsRetried` | components/ImageBackgroundRemoverTool.tsx:166-171 | without a cached function the run awaits a load; a failed load caches nothing, so the next run awaits a load again |
| `SessionState.CachedModelIsReused` | components/ImageBackgroundRemoverTool.tsx:166-173 | with a cached function the run goes straight to `processing` and segmentation, keeping the cache |
| `SessionState.CacheIsKept` | components/ImageBackgroundRemoverTool.tsx:166-171 | once cached, the function stays cached after any sequence of events |
| `SessionState.BusyWhileAwaiting` | components/ImageBackgroundRemoverTool.tsx:95 | `busy` holds after a run starts and after the model arrives, and not once it succeeds or fails |
| `SessionState.LateResultAfterResetIsApplied` | components/ImageBackgroundRemoverTool.tsx:187 | a segmentation that settles after a reset still sets `done` and the blob, with no original image |
| `SessionState.LateFailureAfterResetIsApplied` | components/ImageBackgroundRemoverTool.tsx:189 | a failure that settles after a reset still sets `error` on the fresh session |
| `SessionState.NoLeakWhenGuarded` | components/ImageBackgroundRemoverTool.tsx:116-141 | if images are chosen only while the session holds no URL, and cut-outs arrive only while none is held, the live URLs stay exactly the session's |
| `SessionState.ReplacingImageLeaksUrl` | components/ImageBackgroundRemoverTool.tsx:131-140 | choosing an image while one is shown leaves the old URL live but no longer held |
| `Progress.MergeAll` | components/ImageBackgroundRemoverTool.tsx:178-181 | the progress after the callback has run on each report in turn; MergeAllIsMaximum states what it is |
| `SessionState.Busy` | components/ImageBackgroundRemoverTool.tsx:95 | `busy` is exactly `downloading-model` or `processing`; BusyWhileAwaiting states when it holds |
| `SessionState.IsImageType` | components/ImageBackgroundRemoverTool.tsx:126 | the declared type starts with `image/`; ChooseFileCases states its effect |
| `SessionState.CanProcess` | components/ImageBackgroundRemoverTool.tsx:161 | both `originalUrl` and `originalFile` are set; ProcessNeedsImage states its effect |
| `SessionState.ChooseFile` | components/ImageBackgroundRemoverTool.tsx:124-141 | the file-choice transition; ChooseFileCases states its three cases |
| `SessionState.ResetSession` | components/ImageBackgroundRemoverTool.tsx:116-122 | the reset transition; ResetReleasesEverything states it |
| `SessionState.ToDownloading` | components/ImageBackgroundRemoverTool.tsx:164 | the first update of a run: `downloading-model`, progress 1, error cleared; SuccessPath states it as the first milestone |
| `SessionState.ToProcessing` | components/ImageBackgroundRemoverTool.tsx:173 | the update once the function is at hand: `processing`, progress 5; SuccessPath states it as the second milestone |
| `Progress.PercentAboveTotal` | components/ImageBackgroundRemoverTool.tsx:179 | a report just over its total (1001 of 1000) still rounds to 100, while 5 of 4 gives 125 |
| `SessionState.StartProcess` | components/ImageBackgroundRemoverTool.tsx:160-173 | `processImage` up to its first await; SuccessPath, ProcessNeedsImage and CachedModelIsReused state it |
| `SessionState.Next` | components/ImageBackgroundRemoverTool.tsx:166-169 | what `processImage` awaits next, with the captured source URL; FailedLoadIsRetried and CachedModelIsReused state it |
| `SessionState.CacheModel` | components/ImageBackgroundRemoverTool.tsx:169-173 | the load resolved: the function is cached and the state moves to `processing`/5; SuccessPath states it |
| `SessionState.MergeProgress` | components/ImageBackgroundRemoverTool.tsx:178-181 | the progress callback's transition; ProgressOnlyRises states it |
| `SessionState.StoreCutout` | components/ImageBackgroundRemoverTool.tsx:184-187 | the success transition; SuccessPath and LateResultAfterResetIsApplied state it |
| `SessionState.FailProcess` | components/ImageBackgroundRemoverTool.tsx:188-189 | the failure transition; FailureKeepsEverythingElse states it |
| `SessionState.CachePreload` | components/ImageBackgroundRemoverTool.tsx:103-105 | the preload's transition; PreloadOnlyTouchesCache states it |
| `SessionState.Step` | components/ImageBackgroundRemoverTool.tsx:116-191 | dispatches each event to its transition; StepPreservesWellFormed states the invariant it keeps |
| `SessionState.PreloadOnlyTouchesCache` | components/ImageBackgroundRemoverTool.tsx:103-105 | a settled preload changes only the cache: it stores the function while mounted, even over one a run has loaded, and is ignored after unmounting |
| `SessionState.LateResultThenChoiceLeaksUrl` | components/ImageBackgroundRemoverTool.tsx:131-140 | after a late cut-out lands on a reset session, choosing an image leaves the cut-out URL live but no longer held |
| `Session.ImageBackgroundRemoverTool.constructor` | components/ImageBackgroundRemoverTool.tsx:84-97 | the component mounts with the initial state and an empty cache |
| `Session.ImageBackgroundRemoverTool.Reset` | components/ImageBackgroundRemoverTool.tsx:116-122 | performs the reset step: initial state, held URLs revoked, cache kept |
| `Session.ImageBackgroundRemoverTool.HandleFileSelection` | components/ImageBackgroundRemoverTool.tsx:124-141 | performs the file-choice step; a null file changes nothing |
| `Session.ImageBackgroundRemoverTool.BeginProcess` | components/ImageBackgroundRemoverTool.tsx:160-173 | performs the start step, and returns what is awaited next with the captured source URL; it does not start exactly when the guard fails |
| `Session.ImageBackgroundRemoverTool.ModelLoaded` | components/ImageBackgroundRemoverTool.tsx:169-173 | caches the loaded function and moves to `processing`/5 |
| `Session.ImageBackgroundRemoverTool.OnProgress` | components/ImageBackgroundRemoverTool.tsx:178-181 | performs the progress step; progress does not decrease |
| `Session.ImageBackgroundRemoverTool.SegmentResolved` | components/ImageBackgroundRemoverTool.tsx:184-187 | performs the success step, with a cut-out URL that was not live before |
| `Session.ImageBackgroundRemoverTool.ProcessFailed` | components/ImageBackgroundRemoverTool.tsx:188-189 | performs the failure step |
| `Session.ImageBackgroundRemoverTool.PreloadResolved` | components/ImageBackgroundRemoverTool.tsx:101-107 | caches a preloaded function only while the component is mounted |
| `Session.ImageBackgroundRemoverTool.Download` | components/ImageBackgroundRemoverTool.tsx:193-198 | no link without a cut-out; otherwise the link points at the live cut-out URL under the derived file name |
| `Session.LateResultScenario` | components/ImageBackgroundRemoverTool.tsx:160-191 | choose, start, load, reset, resolve through the handlers: the tool ends `done` with a blob and no original image (the page hides the reset while busy) |

## Left out

- Rendering: the JSX, the icons, the checkerboard and the drag-over flag (`isDragging`). They only affect presentation.
- The dynamic `import()` of the library and the probing of the loaded module, including its "could not find" error. The load is an input to the handlers: `ModelLoaded` receives a function token and `ProcessFailed` receives the thrown message.
- The `removeBackground` call, with its `publicPath` and `model` configuration. It is a third-party library; its result is a `Blob` given to `SegmentResolved`, or a message given to `ProcessFailed`.
- `formatBytes`, which uses floating-point `Math.log`, `Math.pow` and `toFixed`.
- The anchor element created and clicked by `download`, which is browser I/O. Only the link's target and file name are modelled.
- Console logging, and the preload's failure branch. That branch changes no state, so it has no event.
- `Progress.Percent`: `current` and `total` are integers, and the rounding is exact rational arithmetic. The source divides in floating point, which can differ only where a rounding error crosses a half.
- `SessionState.ErrorText`: a thrown value without a string `message` is modelled as the empty message. A thrown `null` would make `err.message` itself throw inside the `catch`, and that is not modelled.
- React's scheduling: each `setState` is applied at once, in program order. When the function is cached, the two synchronous updates of `processImage` form one step.
- The `processImage` closure reads `originalUrl` from the render it was created in. The model reads it from the state at the moment of the click.
- The unmount cleanup is reduced to the `mounted` argument of `PreloadResolved`.
