/**
 * The session of the background-remover component as values: the React
 * `State` record, the cached segmentation function (`removeBgFnRef`) and the
 * browser's object-URL table, and one transition per event the component
 * reacts to. Every continuation merges into whatever state is current
 * (`setState(p => ({ ...p, ... }))`): there is no generation counter, so a
 * late result is applied even after a reset.
 */
module SessionState {

  import opened Wrappers
  import opened ObjectUrls
  import opened Progress
  import ExportName

  datatype Status = Idle | Ready | DownloadingModel | Processing | Done | Error

  /** The uploaded `File`: its name and its declared content type (`file.type`). */
  datatype File = File(name: string, mimeType: string)

  /** The cut-out image returned by the segmentation library. */
  datatype Blob = Blob(bytes: seq<bv8>)

  /** A loaded `removeBackground` function, identified by an opaque token. */
  datatype Segmenter = Segmenter(id: nat)

  /** The component's `State` record, field for field. */
  datatype State = State(
    originalFile: Option<File>,
    originalUrl: Option<Url>,
    processedUrl: Option<Url>,
    processedBlob: Option<Blob>,
    status: Status,
    progress: int,
    error: Option<string>)

  /** The state the component mounts with and `reset` returns to. */
  const Initial: State := State(None, None, None, None, Idle, 0, None)

  const InvalidFileError: string := "Please select a valid image file."
  const LoadFailedError: string := "Failed to load background removal tool."

  /** The component state together with the cached function and the browser's URL table. */
  datatype Machine = Machine(state: State, removeBgFn: Option<Segmenter>, urls: UrlTable)

  /** What the component reacts to: user actions and the settling of its awaited calls. */
  datatype Event =
    | FileChosen(file: Option<File>)          // handleFileSelection
    | ResetClicked                            // reset
    | ProcessClicked                          // processImage, up to its first await
    | ModelArrived(fn: Segmenter)             // loadRemoveBackground resolved inside processImage
    | ProgressReported(report: Report)        // the library's progress callback
    | SegmentationSucceeded(blob: Blob)       // removeBackground resolved
    | ProcessThrew(message: string)           // either await of processImage rejected
    | PreloadSucceeded(fn: Segmenter, mounted: bool)  // the mount-time preload resolved

  /** What `processImage` waits for after its synchronous part. */
  datatype Continuation = NotStarted | AwaitModel(source: Url) | AwaitSegmentation(source: Url)

  /** `busy`: the progress bar is shown and the file input is disabled. */
  predicate Busy(s: State)
  {
    s.status == DownloadingModel || s.status == Processing
  }

  /** `file.type.startsWith("image/")` */
  predicate IsImageType(mimeType: string)
  {
    "image/" <= mimeType
  }

  /** The guard of `processImage`: both `originalUrl` and `originalFile` are set. */
  predicate CanProcess(s: State)
  {
    s.originalUrl.Some? && s.originalFile.Some?
  }

  /** The object URLs the state holds. */
  function Owned(s: State): set<Url>
  {
    (if s.originalUrl.Some? then {s.originalUrl.value} else {}) +
    (if s.processedUrl.Some? then {s.processedUrl.value} else {})
  }

  /** `err.message || "Failed to load background removal tool."` (an empty message falls back). */
  function ErrorText(message: string): (r: string)
    ensures |r| > 0
    ensures r == message || (message == "" && r == LoadFailedError)
  {
    if message == "" then LoadFailedError else message
  }

  /** `handleFileSelection(file)` */
  function ChooseFile(m: Machine, file: Option<File>): Machine
    requires m.urls.Valid()
  {
    match file
    case None => m
    case Some(f) =>
      if !IsImageType(f.mimeType) then m.(state := m.state.(error := Some(InvalidFileError)))
      else
        var c := Create(m.urls);
        m.(state := State(file, Some(c.url), None, None, Ready, 0, None), urls := c.table)
  }

  /** `reset()`: revoke the session's URLs and return to the initial state. */
  function ResetSession(m: Machine): Machine
    requires m.urls.Valid()
  {
    var urls := RevokeIfSet(RevokeIfSet(m.urls, m.state.originalUrl), m.state.processedUrl);
    m.(state := Initial, urls := urls)
  }

  /** The first update of `processImage`: `downloading-model`, progress 1, error cleared. */
  function ToDownloading(s: State): State
  {
    s.(status := DownloadingModel, progress := 1, error := None)
  }

  /** The update once the function is at hand: `processing`, progress 5. */
  function ToProcessing(s: State): State
  {
    s.(status := Processing, progress := 5)
  }

  /**
   * `processImage` up to its first await: nothing without an image; otherwise
   * `downloading-model`, and with a cached function straight on to `processing`.
   */
  function StartProcess(m: Machine): Machine
  {
    if !CanProcess(m.state) then m
    else if m.removeBgFn.Some? then m.(state := ToProcessing(ToDownloading(m.state)))
    else m.(state := ToDownloading(m.state))
  }

  /** What `processImage` awaits next, with the source URL it captured. */
  function Next(m: Machine): Continuation
  {
    if !CanProcess(m.state) then NotStarted
    else if m.removeBgFn.Some? then AwaitSegmentation(m.state.originalUrl.value)
    else AwaitModel(m.state.originalUrl.value)
  }

  /** The load resolved: cache the function, then `processing`, progress 5. */
  function CacheModel(m: Machine, fn: Segmenter): Machine
  {
    m.(removeBgFn := Some(fn), state := ToProcessing(m.state))
  }

  /** The progress callback: `progress := max(progress, pct)`. */
  function MergeProgress(m: Machine, report: Report): Machine
  {
    m.(state := m.state.(progress := Merge(m.state.progress, Percent(report.current, report.total))))
  }

  /** The segmentation resolved: a URL for the cut-out, `done`, progress 100. */
  function StoreCutout(m: Machine, blob: Blob): Machine
    requires m.urls.Valid()
  {
    var c := Create(m.urls);
    m.(state := m.state.(processedBlob := Some(blob), processedUrl := Some(c.url), status := Done, progress := 100),
       urls := c.table)
  }

  /** The `catch` of `processImage`: `error` status with the thrown message. */
  function FailProcess(m: Machine, message: string): Machine
  {
    m.(state := m.state.(status := Error, error := Some(ErrorText(message))))
  }

  /** The preload resolved: cache the function if the component is still mounted. */
  function CachePreload(m: Machine, fn: Segmenter, mounted: bool): Machine
  {
    if mounted then m.(removeBgFn := Some(fn)) else m
  }

  /** How one event changes the machine. */
  function Step(m: Machine, e: Event): Machine
    requires m.urls.Valid()
  {
    match e
    case FileChosen(file) => ChooseFile(m, file)
    case ResetClicked => ResetSession(m)
    case ProcessClicked => StartProcess(m)
    case ModelArrived(fn) => CacheModel(m, fn)
    case ProgressReported(report) => MergeProgress(m, report)
    case SegmentationSucceeded(blob) => StoreCutout(m, blob)
    case ProcessThrew(message) => FailProcess(m, message)
    case PreloadSucceeded(fn, mounted) => CachePreload(m, fn, mounted)
  }

  /**
   * The invariant of the session: the URL table is consistent, every URL the
   * state holds is live and the two are distinct, a file comes with its URL,
   * a cut-out with its URL, and the progress is never negative.
   */
  ghost predicate WellFormed(m: Machine)
  {
    && m.urls.Valid()
    && Owned(m.state) <= m.urls.live
    && (m.state.originalUrl.Some? && m.state.processedUrl.Some? ==>
          m.state.originalUrl.value != m.state.processedUrl.value)
    && (m.state.originalFile.Some? <==> m.state.originalUrl.Some?)
    && (m.state.processedBlob.Some? <==> m.state.processedUrl.Some?)
    && m.state.progress >= 0
  }

  /** The machine after a sequence of events, in order; any interleaving keeps the session well formed. */
  function Run(m: Machine, events: seq<Event>): (r: Machine)
    requires WellFormed(m)
    decreases |events|
    ensures WellFormed(r)
  {
    if events == [] then m
    else
      StepPreservesWellFormed(m, events[0]);
      Run(Step(m, events[0]), events[1..])
  }

  /** The progress callbacks for a sequence of reports. */
  function Callbacks(reports: seq<Report>): seq<Event>
  {
    seq(|reports|, i requires 0 <= i < |reports| => ProgressReported(reports[i]))
  }

  /**
   * `download()`: nothing without a cut-out; otherwise the original name
   * without the extension `\.[^/.]+$` matches, "image" when that leaves
   * nothing or there is no file, then "-no-bg.png".
   */
  function DownloadName(s: State): (r: Option<string>)
    ensures r.None? <==> s.processedBlob.None?
    ensures r.Some? && s.originalFile.None? ==> r.value == ExportName.FallbackBase + ExportName.Suffix
    ensures r.Some? && s.originalFile.Some? ==>
              forall i :: ExportName.ExtensionAt(s.originalFile.value.name, i) ==>
                r.value == (if i == 0 then ExportName.FallbackBase else s.originalFile.value.name[..i]) + ExportName.Suffix
    ensures r.Some? && s.originalFile.Some? && (forall i :: !ExportName.ExtensionAt(s.originalFile.value.name, i)) ==>
              r.value == (if s.originalFile.value.name == "" then ExportName.FallbackBase else s.originalFile.value.name) + ExportName.Suffix
  {
    if s.processedBlob.None? then None
    else if s.originalFile.None? then Some(ExportName.FileName(None))
    else
      ExportName.FileNameCharacterised(s.originalFile.value.name);
      Some(ExportName.FileName(Some(s.originalFile.value.name)))
  }

  // ---------------------------------------------------------------------------
  // The invariant

  /** Every event keeps the session well formed: no URL the state holds is ever revoked. */
  lemma StepPreservesWellFormed(m: Machine, e: Event)
    requires WellFormed(m)
    ensures WellFormed(Step(m, e))
  {
  }

  // ---------------------------------------------------------------------------
  // handleFileSelection and reset

  /**
   * No file: nothing happens. A file that is not an image: only `error` is
   * set and no URL is created. An image: one new URL becomes `originalUrl`
   * and the state is `ready` with everything else cleared.
   */
  lemma ChooseFileCases(m: Machine, file: Option<File>)
    requires WellFormed(m)
    ensures file.None? ==> Step(m, FileChosen(file)) == m
    ensures file.Some? && !IsImageType(file.value.mimeType) ==>
              Step(m, FileChosen(file)) == m.(state := m.state.(error := Some(InvalidFileError)))
    ensures file.Some? && IsImageType(file.value.mimeType) ==>
              var m' := Step(m, FileChosen(file));
              && m.urls.minted !in m.urls.live
              && m'.urls.live == m.urls.live + {m.urls.minted}
              && m'.state == State(file, Some(m.urls.minted), None, None, Ready, 0, None)
              && m'.removeBgFn == m.removeBgFn
  {
  }

  /**
   * Reset revokes the session's URLs and nothing else, returns to the initial
   * state and keeps the cached function: afterwards none of the URLs the
   * session held is live.
   */
  lemma ResetReleasesEverything(m: Machine)
    requires WellFormed(m)
    ensures var m' := Step(m, ResetClicked);
            && m'.state == Initial
            && m'.urls.live == m.urls.live - Owned(m.state)
            && Owned(m.state) !! m'.urls.live
            && m'.removeBgFn == m.removeBgFn
  {
  }

  // ---------------------------------------------------------------------------
  // Progress

  /** A progress callback changes only the progress, and never lowers it. */
  lemma ProgressOnlyRises(m: Machine, report: Report)
    requires WellFormed(m)
    ensures var m' := Step(m, ProgressReported(report));
            && m'.state.progress >= m.state.progress
            && m'.state.progress >= Percent(report.current, report.total)
            && m' == m.(state := m.state.(progress := m'.state.progress))
  {
  }

  /** A run of progress callbacks sets the progress to the maximum of the reports and changes nothing else. */
  lemma {:induction false} CallbacksMergeProgress(m: Machine, reports: seq<Report>)
    requires WellFormed(m)
    decreases |reports|
    ensures Run(m, Callbacks(reports)) == m.(state := m.state.(progress := MergeAll(m.state.progress, reports)))
  {
    if reports != [] {
      var m1 := Step(m, ProgressReported(reports[0]));
      assert Callbacks(reports)[1..] == Callbacks(reports[1..]);
      CallbacksMergeProgress(m1, reports[1..]);
    }
  }

  // ---------------------------------------------------------------------------
  // processImage

  /** Without an image `processImage` does nothing and awaits nothing. */
  lemma ProcessNeedsImage(m: Machine)
    requires WellFormed(m) && !CanProcess(m.state)
    ensures Step(m, ProcessClicked) == m && Next(m) == NotStarted
  {
  }

  /**
   * The success path: `downloading-model` at 1 with the error cleared, then
   * (after loading the function if it was not cached) `processing` at 5, at
   * least 5 while the callbacks run, and finally `done` at 100 with the
   * cut-out under one new URL; the original image and file are untouched and
   * the function is cached.
   */
  lemma {:induction false} SuccessPath(m: Machine, fn: Segmenter, reports: seq<Report>, blob: Blob)
    requires WellFormed(m) && CanProcess(m.state)
    ensures var m1 := Step(m, ProcessClicked);
            var m2 := if m.removeBgFn.Some? then m1 else Step(m1, ModelArrived(fn));
            var m3 := Run(m2, Callbacks(reports));
            var m4 := Step(m3, SegmentationSucceeded(blob));
            && (m.removeBgFn.None? ==> m1.state == ToDownloading(m.state))
            && m2.state == ToProcessing(ToDownloading(m.state))
            && m3.state.status == Processing && m3.state.progress >= 5
            && m4.state.status == Done && m4.state.progress == 100 && m4.state.error.None?
            && m4.state.processedBlob == Some(blob)
            && m4.state.processedUrl == Some(m.urls.minted) && m.urls.minted !in m.urls.live
            && m4.urls.live == m.urls.live + {m.urls.minted}
            && m4.state.originalUrl == m.state.originalUrl && m4.state.originalFile == m.state.originalFile
            && m4.removeBgFn == (if m.removeBgFn.Some? then m.removeBgFn else Some(fn))
  {
    var m1 := Step(m, ProcessClicked);
    var m2 := if m.removeBgFn.Some? then m1 else Step(m1, ModelArrived(fn));
    StepPreservesWellFormed(m, ProcessClicked);
    if m.removeBgFn.None? { StepPreservesWellFormed(m1, ModelArrived(fn)); }
    CallbacksMergeProgress(m2, reports);
    MergeAllIsMaximum(5, reports);
  }

  /**
   * A failure at either await sets `error` status and the message (or the
   * fallback for an empty one) and changes nothing else; in particular a
   * failed load leaves the function uncached.
   */
  lemma FailureKeepsEverythingElse(m: Machine, message: string)
    requires WellFormed(m)
    ensures var m' := Step(m, ProcessThrew(message));
            && m'.state.status == Error
            && m'.state.error == Some(if message == "" then LoadFailedError else message)
            && m' == m.(state := m.state.(status := Error, error := m'.state.error))
  {
  }

  /**
   * The function is loaded only when none is cached; a failed load caches
   * nothing, so the next click on the same image loads again.
   */
  lemma FailedLoadIsRetried(m: Machine, message: string)
    requires WellFormed(m) && CanProcess(m.state) && m.removeBgFn.None?
    ensures var m1 := Step(m, ProcessClicked);
            var m2 := Step(m1, ProcessThrew(message));
            && Next(m) == AwaitModel(m.state.originalUrl.value)
            && m2.removeBgFn.None? && CanProcess(m2.state)
            && Next(m2) == AwaitModel(m.state.originalUrl.value)
  {
  }

  /** With a cached function `processImage` goes straight to segmentation. */
  lemma CachedModelIsReused(m: Machine)
    requires WellFormed(m) && CanProcess(m.state) && m.removeBgFn.Some?
    ensures Next(m) == AwaitSegmentation(m.state.originalUrl.value)
    ensures Step(m, ProcessClicked).state.status == Processing
    ensures Step(m, ProcessClicked).removeBgFn == m.removeBgFn
  {
  }

  /** Once cached, the function stays cached whatever happens next. */
  lemma {:induction false} CacheIsKept(m: Machine, events: seq<Event>)
    requires WellFormed(m) && m.removeBgFn.Some?
    decreases |events|
    ensures Run(m, events).removeBgFn.Some?
  {
    if events != [] {
      StepPreservesWellFormed(m, events[0]);
      CacheIsKept(Step(m, events[0]), events[1..]);
    }
  }

  /**
   * A settled preload touches only the cache: it stores the function when the
   * component is still mounted, even over one a run has just loaded, and is
   * ignored after unmounting.
   */
  lemma PreloadOnlyTouchesCache(m: Machine, fn: Segmenter, mounted: bool)
    requires WellFormed(m)
    ensures var m' := Step(m, PreloadSucceeded(fn, mounted));
            && m'.state == m.state && m'.urls == m.urls
            && m'.removeBgFn == (if mounted then Some(fn) else m.removeBgFn)
  {
  }

  /**
   * The component is busy after a run starts and after its model arrives, and
   * no longer busy once the run succeeds or fails.
   */
  lemma BusyWhileAwaiting(m: Machine, fn: Segmenter, blob: Blob, message: string)
    requires WellFormed(m) && CanProcess(m.state)
    ensures Busy(Step(m, ProcessClicked).state)
    ensures Busy(Step(Step(m, ProcessClicked), ModelArrived(fn)).state)
    ensures !Busy(Step(m, SegmentationSucceeded(blob)).state)
    ensures !Busy(Step(m, ProcessThrew(message)).state)
  {
  }

  // ---------------------------------------------------------------------------
  // No protection against late results

  /**
   * A segmentation that settles after a reset is still merged in: the session
   * ends `done` with a cut-out but without an original image.
   */
  lemma LateResultAfterResetIsApplied(m: Machine, blob: Blob)
    requires WellFormed(m)
    ensures var m' := Step(Step(m, ResetClicked), SegmentationSucceeded(blob));
            m'.state.status == Done && m'.state.originalUrl.None? && m'.state.processedBlob == Some(blob)
  {
  }

  /** A failure that settles after a reset still turns the fresh session into `error`. */
  lemma LateFailureAfterResetIsApplied(m: Machine, message: string)
    requires WellFormed(m)
    ensures var m' := Step(Step(m, ResetClicked), ProcessThrew(message));
            m'.state.status == Error && m'.state.originalUrl.None? && m'.state.error.Some?
  {
  }

  // ---------------------------------------------------------------------------
  // URL leaks

  /**
   * The session leaks no URL as long as a new image is only chosen while the
   * session holds no URL and a cut-out only arrives while none is held (the
   * upload area is rendered only while `originalUrl` is null, and the process
   * button only outside `done`): then the live URLs stay exactly those the
   * state holds.
   */
  lemma NoLeakWhenGuarded(m: Machine, e: Event)
    requires WellFormed(m) && m.urls.live == Owned(m.state)
    requires e.FileChosen? ==> m.state.originalUrl.None? && m.state.processedUrl.None?
    requires e.SegmentationSucceeded? ==> m.state.processedUrl.None?
    ensures Step(m, e).urls.live == Owned(Step(m, e).state)
  {
  }

  /**
   * The upload area's own guard (`originalUrl` null) is weaker than the one
   * above: after a late cut-out lands on a reset session, choosing an image
   * drops the cut-out's URL while it stays live.
   */
  lemma LateResultThenChoiceLeaksUrl(m: Machine, blob: Blob, f: File)
    requires WellFormed(m) && IsImageType(f.mimeType)
    ensures var m1 := Step(Step(m, ResetClicked), SegmentationSucceeded(blob));
            var m2 := Step(m1, FileChosen(Some(f)));
            && m1.state.originalUrl.None? && m1.state.processedUrl.Some?
            && m1.state.processedUrl.value in m2.urls.live
            && m1.state.processedUrl.value !in Owned(m2.state)
  {
  }

  /** Choosing a second image while one is shown does not revoke the first URL: it stays live, unowned. */
  lemma ReplacingImageLeaksUrl(m: Machine, f: File)
    requires WellFormed(m) && m.state.originalUrl.Some? && IsImageType(f.mimeType)
    ensures var m' := Step(m, FileChosen(Some(f)));
            m.state.originalUrl.value in m'.urls.live && m.state.originalUrl.value !in Owned(m'.state)
  {
  }
}
