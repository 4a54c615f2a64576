/**
 * The component instance: the fields of its `State`, the `removeBgFnRef`
 * ref and the browser's URL table, updated in place by the component's
 * handlers. Each handler is proved to perform the transition of
 * `SessionState.Step` for its event.
 */
module Session {

  import opened Wrappers
  import opened ObjectUrls
  import opened Progress
  import opened SessionState
  import ExportName

  /** What `download()` hands to the anchor it clicks. */
  datatype DownloadLink = DownloadLink(href: Url, fileName: string)

  class ImageBackgroundRemoverTool {
    var originalFile: Option<File>
    var originalUrl: Option<Url>
    var processedUrl: Option<Url>
    var processedBlob: Option<Blob>
    var status: Status
    var progress: int
    var error: Option<string>
    var removeBgFnRef: Option<Segmenter>
    var urls: UrlTable

    /** The fields as the values `SessionState` speaks about. */
    function View(): Machine
      reads this
    {
      Machine(State(originalFile, originalUrl, processedUrl, processedBlob, status, progress, error),
              removeBgFnRef, urls)
    }

    ghost predicate Valid()
      reads this
    {
      WellFormed(View())
    }

    /** Mounting: the initial state, nothing cached, in a browser with URL table `browser`. */
    constructor (browser: UrlTable)
      requires browser.Valid()
      ensures Valid()
      ensures View() == Machine(Initial, None, browser)
    {
      originalFile, originalUrl, processedUrl, processedBlob := None, None, None, None;
      status, progress, error := Idle, 0, None;
      removeBgFnRef := None;
      urls := browser;
    }

    /** `reset()`: revoke the URLs the state holds, then return to the initial state. */
    method Reset()
      requires Valid()
      modifies this
      ensures Valid()
      ensures View() == Step(old(View()), ResetClicked)
      ensures View().state == Initial && removeBgFnRef == old(removeBgFnRef)
      ensures urls.live == old(urls.live) - Owned(old(View().state))
    {
      if originalUrl.Some? { urls := Revoke(urls, originalUrl.value); }
      if processedUrl.Some? { urls := Revoke(urls, processedUrl.value); }
      originalFile, originalUrl, processedUrl, processedBlob := None, None, None, None;
      status, progress, error := Idle, 0, None;
    }

    /** `handleFileSelection(file)` */
    method HandleFileSelection(file: Option<File>)
      requires Valid()
      modifies this
      ensures Valid()
      ensures View() == Step(old(View()), FileChosen(file))
      ensures file.None? ==> View() == old(View())
    {
      if file.None? { return; }
      if !IsImageType(file.value.mimeType) {
        error := Some(InvalidFileError);
        return;
      }
      var created := Create(urls);
      urls := created.table;
      originalFile, originalUrl, processedUrl, processedBlob := file, Some(created.url), None, None;
      status, progress, error := Ready, 0, None;
    }

    /**
     * `processImage()` up to its first await: returns what it awaits next,
     * with the URL of the image handed to the library.
     */
    method BeginProcess() returns (next: Continuation)
      requires Valid()
      modifies this
      ensures Valid()
      ensures View() == Step(old(View()), ProcessClicked)
      ensures next == Next(old(View()))
      ensures next.NotStarted? <==> !CanProcess(old(View().state))
    {
      if originalUrl.None? || originalFile.None? {
        return NotStarted;
      }
      status, progress, error := DownloadingModel, 1, None;
      var removeBackground := removeBgFnRef;
      if removeBackground.None? {
        return AwaitModel(originalUrl.value);
      }
      status, progress := Processing, 5;
      next := AwaitSegmentation(originalUrl.value);
    }

    /** `loadRemoveBackground()` resolved inside `processImage`: cache it, then `processing`. */
    method ModelLoaded(fn: Segmenter)
      requires Valid()
      modifies this
      ensures Valid()
      ensures View() == Step(old(View()), ModelArrived(fn))
      ensures removeBgFnRef == Some(fn)
    {
      removeBgFnRef := Some(fn);
      status, progress := Processing, 5;
    }

    /** The library's progress callback. */
    method OnProgress(current: int, total: int)
      requires Valid()
      modifies this
      ensures Valid()
      ensures View() == Step(old(View()), ProgressReported(Report(current, total)))
      ensures progress >= old(progress)
    {
      var pct := Percent(current, total);
      progress := Merge(progress, pct);
    }

    /** `removeBackground(...)` resolved: a URL for the cut-out, then `done`. */
    method SegmentResolved(resultBlob: Blob)
      requires Valid()
      modifies this
      ensures Valid()
      ensures View() == Step(old(View()), SegmentationSucceeded(resultBlob))
      ensures processedUrl.Some? && processedUrl.value !in old(urls.live)
    {
      var created := Create(urls);
      urls := created.table;
      processedBlob, processedUrl, status, progress := Some(resultBlob), Some(created.url), Done, 100;
    }

    /** The `catch` of `processImage`, for a failed load or a failed segmentation. */
    method ProcessFailed(message: string)
      requires Valid()
      modifies this
      ensures Valid()
      ensures View() == Step(old(View()), ProcessThrew(message))
    {
      status := Error;
      error := Some(ErrorText(message));
    }

    /** The mount-time preload resolved with `fn`. */
    method PreloadResolved(fn: Segmenter, mounted: bool)
      requires Valid()
      modifies this
      ensures Valid()
      ensures View() == Step(old(View()), PreloadSucceeded(fn, mounted))
    {
      if mounted {
        removeBgFnRef := Some(fn);
      }
    }

    /** `download()`: nothing without a cut-out, otherwise its URL and the derived file name. */
    method Download() returns (link: Option<DownloadLink>)
      requires Valid()
      ensures link.None? <==> processedBlob.None?
      ensures link.Some? ==> processedUrl == Some(link.value.href) && link.value.href in urls.live
      ensures link.Some? ==> Some(link.value.fileName) == DownloadName(View().state)
    {
      if processedBlob.None? {
        return None;
      }
      var name := if originalFile.Some? then Some(originalFile.value.name) else None;
      link := Some(DownloadLink(processedUrl.value, ExportName.FileName(name)));
    }
  }

  /**
   * A run of the handlers with a reset landing while the segmentation is
   * still running: the late result is merged into the fresh session. This is
   * a property of the handlers themselves; the rendered page shows no reset
   * button while the session is busy, so it never issues that reset.
   */
  method LateResultScenario(f: File, fn: Segmenter, blob: Blob) returns (tool: ImageBackgroundRemoverTool)
    requires IsImageType(f.mimeType)
    ensures tool.status == Done && tool.originalUrl.None? && tool.processedBlob == Some(blob)
  {
    tool := new ImageBackgroundRemoverTool(UrlTable({}, 0));
    tool.HandleFileSelection(Some(f));
    var next := tool.BeginProcess();
    assert next.AwaitModel?;  // nothing is cached yet, so the run awaits a load
    tool.ModelLoaded(fn);
    tool.Reset();
    tool.SegmentResolved(blob);
  }
}
