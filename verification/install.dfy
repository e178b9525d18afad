/**
 * Getting the WebView2 runtime: what a new window does when the runtime is
 * or is not installed, the result code of the download-and-install worker
 * thread, and what the window does with that code when the worker reports back.
 */
module Install {
  import opened Wrappers

  /** `S_OK`. */
  const SOk: int := 0

  /** The worker's result codes. */
  const InstallSucceeded: int := 0
  const InstallFailed: int := 1
  const DownloadFailed: int := 2

  /**
   * `DownloadAndInstallWV2RT`'s return code, from the `HRESULT` of the
   * bootstrapper download and whether `ShellExecuteEx` could start the installer.
   */
  function DownloadAndInstallCode(downloadHr: int, installerStarted: bool): (code: int)
    ensures code == DownloadFailed <==> downloadHr != SOk
    ensures code == InstallSucceeded <==> downloadHr == SOk && installerStarted
    ensures code == InstallFailed <==> downloadHr == SOk && !installerStarted
  {
    if downloadHr != SOk then DownloadFailed
    else if installerStarted then InstallSucceeded
    else InstallFailed
  }

  /** What `InstallComplete` does with a result code. */
  datatype FollowUp =
    | ScheduleInitializeWebView   // `RunAsync(InitializeWebView)`
    | ReportInstallFailed         // "WebView Runtime failed to Install"
    | ReportDownloadFailed        // "WebView Bootstrapper failled to download"

  /** `InstallComplete`: nothing once the window is closed, and nothing for an unknown code. */
  function InstallFollowUp(isClosed: bool, code: int): (r: Option<FollowUp>)
    ensures isClosed ==> r.None?
    ensures r.Some? <==> !isClosed && code in {InstallSucceeded, InstallFailed, DownloadFailed}
    ensures r == Some(ScheduleInitializeWebView) <==> !isClosed && code == InstallSucceeded
    ensures r == Some(ReportInstallFailed) <==> !isClosed && code == InstallFailed
    ensures r == Some(ReportDownloadFailed) <==> !isClosed && code == DownloadFailed
  {
    if isClosed then None
    else if code == InstallSucceeded then Some(ScheduleInitializeWebView)
    else if code == InstallFailed then Some(ReportInstallFailed)
    else if code == DownloadFailed then Some(ReportDownloadFailed)
    else None
  }

  /**
   * Every way the worker can end produces exactly one follow-up on a window
   * that is still open: WebView initialisation only after a successful
   * download and installer start, and a distinct report for each failure.
   */
  lemma WorkerOutcomeReported(downloadHr: int, installerStarted: bool)
    ensures var r := InstallFollowUp(false, DownloadAndInstallCode(downloadHr, installerStarted));
            && r.Some?
            && (r.value == ScheduleInitializeWebView <==> downloadHr == SOk && installerStarted)
            && (r.value == ReportDownloadFailed <==> downloadHr != SOk)
            && (r.value == ReportInstallFailed <==> downloadHr == SOk && !installerStarted)
  {
  }

  /** What the window constructor does about the runtime. */
  datatype Startup =
    | InitializeWhenIdle      // `RunAsync(InitializeWebView)`
    | DownloadRuntime         // `AddRef` and start the worker thread
    | ReportRuntimeMissing    // "WebView Runtime not installed"

  /**
   * The constructor's choice, from `GetAvailableCoreWebView2BrowserVersionString`'s
   * `HRESULT` and whether it returned a version string. Only the main window
   * downloads the runtime; other windows just report that it is missing.
   */
  function StartupPlan(versionHr: int, hasVersion: bool, isMainWindow: bool): (r: Startup)
    ensures r == InitializeWhenIdle <==> versionHr == SOk && hasVersion
    ensures r == DownloadRuntime <==> !(versionHr == SOk && hasVersion) && isMainWindow
    ensures r == ReportRuntimeMissing <==> !(versionHr == SOk && hasVersion) && !isMainWindow
  {
    if versionHr == SOk && hasVersion then InitializeWhenIdle
    else if isMainWindow then DownloadRuntime
    else ReportRuntimeMissing
  }
}
