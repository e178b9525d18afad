/**
 * The window's message and command decisions. Each handler's side effects
 * (calls into the WebView, dialogs, new windows) are returned as `Effect`
 * tags, in the order the handler performs them; the state the window keeps
 * itself is updated by the `AppWindow` class.
 */
module Commands {
  import opened Wrappers
  import opened Win32
  import opened Registry

  /** The menu command identifiers (`IDM_...`) the window reacts to; `Unlisted` is any other. */
  datatype CommandId =
    | GetBrowserVersionAfterCreation
    | CloseWebViewCommand
    | CloseWebViewCleanup
    | ScenarioPostWebMessage
    | ScenarioAddHostObjectCommand
    | ScenarioWebViewEventMonitorCommand
    | ScenarioJavaScript
    | ScenarioTypeScript
    | ScenarioAuthenticationCommand
    | ScenarioCookieManagementCommand
    | ScenarioDomContentLoadedCommand
    | ScenarioNavigateWithWebResourceRequestCommand
    | AboutCommand
    | GetBrowserVersionBeforeCreation
    | ExitCommand
    | CreationModeWindowed
    | CreationModeVisualDComp
    | CreationModeTargetDComp
    | CreationModeVisualWinComp
    | ReinitCommand
    | ToggleFullScreenAllowedCommand
    | NewWindowCommand
    | NewThreadCommand
    | SetLanguageCommand
    | ToggleAadSsoCommand
    | Unlisted(code: nat)

  /** One side effect of a handler. */
  datatype Effect =
    | ShowBrowserVersion(afterCreation: bool)     // message box with the browser version
    | CloseWebViewEffect(cleanupUserDataFolder: bool)
    | NewComponentEffect(kind: ComponentKind)
    | Navigate(uri: string)
    | NavigateLocal(relativePath: string)         // `Navigate(GetLocalUri(relativePath))`, see `Paths.LocalUri`
    | ShowAboutDialog
    | CloseAppWindow
    | SetCreationModeEffect(mode: CommandId)
    | InitializeWebView
    | ToggleFullScreenAllowedEffect
    | OpenNewWindow(mode: CommandId)
    | OpenNewThread(mode: CommandId)
    | ChangeLanguage
    | ToggleAadSsoEffect
    | SaveScreenshot                              // only if a FileComponent exists
    | ResizeEverything
    | UpdateDpiAndTextScale
    | PaintWindow
    | RunQueuedTask
    | NotifyClosed
    | CountDownInstances                          // `--s_appInstances`, quitting at zero
    | RegisterRestart
    | PostQuit
    | EnterFullScreen
    | ExitFullScreen
    | RestartApp
    | ReinitializeWithNewBrowser

  /** The commands handled by `ExecuteWebViewCommands`. */
  predicate IsWebViewCommand(c: CommandId) {
    || c == GetBrowserVersionAfterCreation || c == CloseWebViewCommand || c == CloseWebViewCleanup
    || c == ScenarioPostWebMessage || c == ScenarioAddHostObjectCommand
    || c == ScenarioWebViewEventMonitorCommand || c == ScenarioJavaScript || c == ScenarioTypeScript
    || c == ScenarioAuthenticationCommand || c == ScenarioCookieManagementCommand
    || c == ScenarioDomContentLoadedCommand || c == ScenarioNavigateWithWebResourceRequestCommand
  }

  /** The commands handled by `ExecuteAppCommands`; the WinComp mode exists only in the Windows 10 build. */
  predicate IsAppCommand(c: CommandId, win10: bool) {
    || c == AboutCommand || c == GetBrowserVersionBeforeCreation || c == ExitCommand
    || c == CreationModeWindowed || c == CreationModeVisualDComp || c == CreationModeTargetDComp
    || (win10 && c == CreationModeVisualWinComp)
    || c == ReinitCommand || c == ToggleFullScreenAllowedCommand || c == NewWindowCommand
    || c == NewThreadCommand || c == SetLanguageCommand || c == ToggleAadSsoCommand
  }

  /**
   * `ExecuteWebViewCommands`: `None` is "not handled". Nothing is handled while
   * there is no WebView. The TypeScript scenario has no `return`: after its
   * navigation it falls through into the authentication scenario.
   */
  function WebViewCommand(hasWebView: bool, c: CommandId): (r: Option<seq<Effect>>)
    ensures r.Some? <==> hasWebView && IsWebViewCommand(c)
    ensures r.Some? ==> |r.value| >= 1
    // Only the clean-up command asks for the user data folder to be deleted.
    ensures r.Some? ==> (CloseWebViewEffect(true) in r.value <==> c == CloseWebViewCleanup)
    ensures r.Some? ==> (CloseWebViewEffect(false) in r.value <==> c == CloseWebViewCommand)
    ensures r.Some? ==> (ShowBrowserVersion(true) in r.value <==> c == GetBrowserVersionAfterCreation)
  {
    if !hasWebView then None
    else match c
      case GetBrowserVersionAfterCreation => Some([ShowBrowserVersion(true)])
      case CloseWebViewCommand => Some([CloseWebViewEffect(false)])
      case CloseWebViewCleanup => Some([CloseWebViewEffect(true)])
      case ScenarioPostWebMessage => Some([NewComponentEffect(ScenarioWebMessage)])
      case ScenarioAddHostObjectCommand => Some([NewComponentEffect(ScenarioAddHostObject)])
      case ScenarioWebViewEventMonitorCommand => Some([NewComponentEffect(ScenarioWebViewEventMonitor)])
      case ScenarioJavaScript => Some([NavigateLocal("ScenarioJavaScriptDebugIndex.html")])
      case ScenarioTypeScript => Some([NavigateLocal(TypeScriptPage)] + AuthenticationScenario)
      case ScenarioAuthenticationCommand => Some(AuthenticationScenario)
      case ScenarioCookieManagementCommand => Some([NewComponentEffect(ScenarioCookieManagement)])
      case ScenarioDomContentLoadedCommand => Some([NewComponentEffect(ScenarioDomContentLoaded)])
      case ScenarioNavigateWithWebResourceRequestCommand =>
        Some([NewComponentEffect(ScenarioNavigateWithWebResourceRequest)])
      case _ => None
  }

  /** What the authentication scenario command does. */
  const AuthenticationScenario: seq<Effect> := [NewComponentEffect(ScenarioAuthentication)]

  /** The page the TypeScript debugging scenario opens. */
  const TypeScriptPage: string := "ScenarioTypeScriptDebugIndex.html"

  /**
   * The TypeScript scenario navigates to its page and then does everything
   * the authentication scenario does.
   */
  lemma TypeScriptFallsThroughToAuthentication()
    ensures WebViewCommand(true, ScenarioTypeScript).Some?
    ensures |WebViewCommand(true, ScenarioTypeScript).value| == 2
    ensures WebViewCommand(true, ScenarioTypeScript).value[0] == NavigateLocal(TypeScriptPage)
    ensures WebViewCommand(true, ScenarioTypeScript).value[1..] == WebViewCommand(true, ScenarioAuthenticationCommand).value
  {
    var navigation := [NavigateLocal(TypeScriptPage)];
    assert (navigation + AuthenticationScenario)[1..] == AuthenticationScenario;
  }

  /** The creation-mode menu commands; the WinComp mode exists only in the Windows 10 build. */
  predicate IsCreationModeCommand(c: CommandId, win10: bool) {
    || c == CreationModeWindowed || c == CreationModeVisualDComp || c == CreationModeTargetDComp
    || (win10 && c == CreationModeVisualWinComp)
  }

  /**
   * `ExecuteAppCommands`: commands that work with or without a WebView.
   * `mode` is the current creation mode, which new windows and threads inherit.
   */
  function AppCommand(c: CommandId, mode: CommandId, win10: bool): (r: Option<seq<Effect>>)
    ensures r.Some? <==> IsAppCommand(c, win10)
    ensures r.Some? ==> |r.value| == 1
    // A creation-mode command makes its own identifier the new mode, and only it changes the mode.
    ensures IsCreationModeCommand(c, win10) ==> r == Some([SetCreationModeEffect(c)])
    ensures r.Some? ==> forall m :: SetCreationModeEffect(m) in r.value ==> m == c && IsCreationModeCommand(c, win10)
    // New windows and threads inherit the current creation mode.
    ensures r.Some? ==> forall m :: OpenNewWindow(m) in r.value || OpenNewThread(m) in r.value ==> m == mode
  {
    match c
    case AboutCommand => Some([ShowAboutDialog])
    case GetBrowserVersionBeforeCreation => Some([ShowBrowserVersion(false)])
    case ExitCommand => Some([CloseAppWindow])
    case CreationModeWindowed => Some([SetCreationModeEffect(c)])
    case CreationModeVisualDComp => Some([SetCreationModeEffect(c)])
    case CreationModeTargetDComp => Some([SetCreationModeEffect(c)])
    case CreationModeVisualWinComp => if win10 then Some([SetCreationModeEffect(c)]) else None
    case ReinitCommand => Some([InitializeWebView])
    case ToggleFullScreenAllowedCommand => Some([ToggleFullScreenAllowedEffect])
    case NewWindowCommand => Some([OpenNewWindow(mode)])
    case NewThreadCommand => Some([OpenNewThread(mode)])
    case SetLanguageCommand => Some([ChangeLanguage])
    case ToggleAadSsoCommand => Some([ToggleAadSsoEffect])
    case _ => None
  }

  /**
   * `WM_COMMAND`: `ExecuteWebViewCommands(...) || ExecuteAppCommands(...)`.
   * The WebView handler is tried first; the app handler runs only when it declines.
   */
  function Command(hasWebView: bool, c: CommandId, mode: CommandId, win10: bool): (r: Option<seq<Effect>>)
    ensures r.Some? <==> (hasWebView && IsWebViewCommand(c)) || IsAppCommand(c, win10)
    ensures hasWebView && IsWebViewCommand(c) ==> r == WebViewCommand(hasWebView, c)
    ensures !(hasWebView && IsWebViewCommand(c)) ==> r == AppCommand(c, mode, win10)
  {
    var web := WebViewCommand(hasWebView, c);
    if web.Some? then web else AppCommand(c, mode, win10)
  }

  /** No identifier belongs to both handlers, so the order never decides which of them acts. */
  lemma CommandSetsDisjoint(c: CommandId, win10: bool)
    ensures !(IsWebViewCommand(c) && IsAppCommand(c, win10))
  {
  }

  /**
   * `GetAcceleratorKeyFunction`: with Ctrl held, N opens a window, Q closes
   * this one, S saves a screenshot, T opens a window on a new thread and
   * W closes the WebView. Any other key, or no Ctrl, has no action.
   */
  function AcceleratorFor(ctrlDown: bool, key: UInt32, mode: CommandId): (r: Option<Effect>)
    ensures r.Some? <==> ctrlDown && key in {'N' as int, 'Q' as int, 'S' as int, 'T' as int, 'W' as int}
    ensures r.Some? ==> r.value in {OpenNewWindow(mode), CloseAppWindow, SaveScreenshot, OpenNewThread(mode), CloseWebViewEffect(false)}
  {
    if !ctrlDown then None
    else if key == 'N' as int then Some(OpenNewWindow(mode))
    else if key == 'Q' as int then Some(CloseAppWindow)
    else if key == 'S' as int then Some(SaveScreenshot)
    else if key == 'T' as int then Some(OpenNewThread(mode))
    else if key == 'W' as int then Some(CloseWebViewEffect(false))
    else None
  }

  /** Bit 30 of a `WM_KEYDOWN` `lParam`: the key was already down (auto-repeat). */
  predicate IsAutoRepeat(lParam: Word64) {
    (lParam / 0x4000_0000) % 2 == 1
  }

  /** The window messages the window reacts to; `OtherMessage` is any other. */
  datatype Message =
    | Size(lParam: Word64)
    | DpiChanged
    | Paint
    | RunAsync
    | NcDestroy
    | QueryEndSession
    | EndSession(wParam: Word64)
    | KeyDown(wParam: Word64, lParam: Word64)
    | MenuCommand(id: CommandId)
    | OtherMessage

  /** What `HandleWindowMessage` returns, and the effects it had on the way. */
  datatype Reply = Reply(handled: bool, effects: seq<Effect>)

  /**
   * The window's own part of `HandleWindowMessage`, after every component has
   * declined the message. An unhandled message goes on to `DefWindowProc`.
   */
  function WindowMessage(msg: Message, ctrlDown: bool, hasWebView: bool, mode: CommandId, win10: bool): (r: Reply)
    // An auto-repeated key-down never runs an accelerator.
    ensures msg.KeyDown? && IsAutoRepeat(msg.lParam) ==> r == Reply(false, [])
    // A fresh key-down is handled exactly when the key has an accelerator.
    ensures msg.KeyDown? && !IsAutoRepeat(msg.lParam) ==>
              (r.handled <==> AcceleratorFor(ctrlDown, TruncateToUInt32(msg.wParam), mode).Some?)
    // ... and then the accelerator's action is what it does.
    ensures msg.KeyDown? && !IsAutoRepeat(msg.lParam) ==>
              r == match AcceleratorFor(ctrlDown, TruncateToUInt32(msg.wParam), mode)
                   case Some(e) => Reply(true, [e])
                   case None => Reply(false, [])
    ensures msg.MenuCommand? ==>
              (r.handled <==> (hasWebView && IsWebViewCommand(msg.id)) || IsAppCommand(msg.id, win10))
    // A command's effects are those of whichever of the two handlers takes it.
    ensures msg.MenuCommand? ==>
              r == match Command(hasWebView, msg.id, mode, win10)
                   case Some(es) => Reply(true, es)
                   case None => Reply(false, [])
    // A resize is handled only when the new size is not zero, and the end of a
    // session only when it really ends; the other messages of the window are
    // always handled.
    ensures msg.Size? ==> (r.handled <==> msg.lParam != 0)
    ensures msg.EndSession? ==> (r.handled <==> msg.wParam == 1)
    ensures msg.Paint? || msg.DpiChanged? || msg.RunAsync? || msg.QueryEndSession? ==> r.handled
    // The last window's destruction is counted but left to `DefWindowProc`.
    ensures msg.NcDestroy? ==> !r.handled && CountDownInstances in r.effects
    ensures !r.handled && !msg.NcDestroy? ==> r.effects == []
    ensures msg.OtherMessage? ==> r == Reply(false, [])
  {
    match msg
    case Size(lParam) => if lParam != 0 then Reply(true, [ResizeEverything]) else Reply(false, [])
    case DpiChanged => Reply(true, [UpdateDpiAndTextScale])
    case Paint => Reply(true, [PaintWindow])
    case RunAsync => Reply(true, [RunQueuedTask])
    case NcDestroy => Reply(false, [NotifyClosed, CountDownInstances])
    case QueryEndSession => Reply(true, [RegisterRestart])
    case EndSession(wParam) => if wParam == 1 then Reply(true, [PostQuit]) else Reply(false, [])
    case KeyDown(wParam, lParam) =>
      if IsAutoRepeat(lParam) then Reply(false, [])
      else (match AcceleratorFor(ctrlDown, TruncateToUInt32(wParam), mode)
            case Some(e) => Reply(true, [e])
            case None => Reply(false, []))
    case MenuCommand(id) =>
      (match Command(hasWebView, id, mode, win10)
       case Some(es) => Reply(true, es)
       case None => Reply(false, []))
    case OtherMessage => Reply(false, [])
  }

  /**
   * ContainsFullScreenElementChanged: the window follows the page into and
   * out of full screen, but only while full screen is allowed.
   */
  function FullScreenChanged(fullScreenAllowed: bool, containsFullScreenElement: bool): (r: Option<Effect>)
    ensures r.Some? <==> fullScreenAllowed
    ensures r.Some? ==> (r.value == EnterFullScreen <==> containsFullScreenElement)
    ensures r.Some? ==> r.value in {EnterFullScreen, ExitFullScreen}
  {
    if !fullScreenAllowed then None
    else if containsFullScreenElement then Some(EnterFullScreen)
    else Some(ExitFullScreen)
  }

  /** WindowCloseRequested (`window.close()`): only a popup window closes itself. */
  function WindowCloseRequested(isPopupWindow: bool): (r: Option<Effect>)
    ensures r.Some? <==> isPopupWindow
    ensures r.Some? ==> r.value == CloseAppWindow
  {
    if isPopupWindow then Some(CloseAppWindow) else None
  }

  /** The buttons of a message box and the answer the user gives. */
  datatype Answer = Ok | Yes | No | Cancel

  /** NewBrowserVersionAvailable offers Yes/No/Cancel while there is a WebView, and only OK otherwise. */
  function OfferedAnswers(hasWebView: bool): (r: set<Answer>)
    ensures Ok in r <==> !hasWebView
    ensures Yes in r <==> hasWebView
    ensures No in r <==> hasWebView
    ensures Cancel in r <==> hasWebView
  {
    if hasWebView then {Yes, No, Cancel} else {Ok}
  }

  /**
   * NewBrowserVersionAvailable: Yes restarts the app, No re-creates the
   * WebViews with the new browser, anything else does nothing.
   */
  function NewBrowserVersionAvailable(hasWebView: bool, answer: Answer): (r: Option<Effect>)
    requires answer in OfferedAnswers(hasWebView)
    ensures !hasWebView ==> r.None?
    ensures r == Some(RestartApp) <==> answer == Yes
    ensures r == Some(ReinitializeWithNewBrowser) <==> answer == No
    ensures r.None? <==> answer in {Ok, Cancel}
  {
    if answer == Yes then Some(RestartApp)
    else if answer == No then Some(ReinitializeWithNewBrowser)
    else None
  }

  /** The initial-URI value that asks for no first navigation (popups are given it). */
  const NoInitialNavigation: string := "none"

  /**
   * The first navigation after the WebView is created: an empty initial URI
   * means the start page; `"none"` means no navigation at all.
   */
  function InitialNavigation(initialUri: string, startPageUri: string): (r: Option<Effect>)
    ensures r.None? <==> initialUri == NoInitialNavigation
                         || (initialUri == [] && startPageUri == NoInitialNavigation)
    ensures initialUri != [] && r.Some? ==> r.value == Navigate(initialUri)
    ensures initialUri == [] && r.Some? ==> r.value == Navigate(startPageUri)
  {
    var uri := if initialUri == [] then startPageUri else initialUri;
    if uri != NoInitialNavigation then Some(Navigate(uri)) else None
  }

  /**
   * The start page is looked up once: after the first creation has stored it
   * as the initial URI, every later creation navigates to the same place,
   * whatever the start page would be then.
   */
  lemma StartPageKept(initialUri: string, startPageUri: string, laterStartPageUri: string)
    requires initialUri != [] || startPageUri != []
    ensures var kept := if initialUri == [] then startPageUri else initialUri;
            InitialNavigation(kept, laterStartPageUri) == InitialNavigation(initialUri, startPageUri)
  {
  }
}
