/**
 * The application window, `AppWindow`, and the per-thread count of open
 * windows. Only the state the window keeps itself is modelled: its component
 * registry, its flags, its creation mode and its reference count. The WebView
 * itself is reduced to whether the window currently has one.
 */
module AppWindows {
  import opened Wrappers
  import opened Win32
  import opened Registry
  import opened Geometry
  import opened Commands
  import opened Install

  /**
   * The UI thread's `s_appInstances`: the number of windows created on the
   * thread and not yet destroyed. `windows` names those windows.
   */
  class UiThread {
    var appInstances: nat
    ghost var windows: set<object>

    ghost predicate Valid()
      reads this
    {
      appInstances == |windows|
    }

    constructor ()
      ensures Valid() && windows == {}
    {
      appInstances := 0;
      windows := {};
    }

    /** `++s_appInstances` in the window constructor. */
    method WindowCreated(w: object)
      requires Valid() && w !in windows
      modifies this
      ensures Valid() && windows == old(windows) + {w}
      ensures appInstances == old(appInstances) + 1
    {
      appInstances := appInstances + 1;
      windows := windows + {w};
    }

    /**
     * `--s_appInstances` on `WM_NCDESTROY`: the message loop is told to quit
     * exactly when the last window of the thread goes away.
     */
    method WindowDestroyed(w: object) returns (postQuit: bool)
      requires Valid() && w in windows
      modifies this
      ensures Valid() && windows == old(windows) - {w}
      ensures appInstances == old(appInstances) - 1
      ensures postQuit <==> windows == {}
    {
      assert |windows - {w}| == |windows| - 1;
      appInstances := appInstances - 1;
      windows := windows - {w};
      postQuit := appInstances == 0;
    }
  }

  class AppWindow {
    const thread: UiThread
    /** Where `CreateWindowExW` placed the window. */
    const placement: Placement
    /** Whether the constructor set up the toolbar. */
    const hasToolbar: bool

    /** `m_components`, in creation order. */
    var components: seq<Component>
    /** Stands for the address of the next component allocated. */
    var nextComponentId: nat
    /** `m_oldSettingsComponent`: a settings component kept across a WebView re-creation. */
    var oldSettingsComponent: Option<Component>
    /** Whether `m_webView` is set. */
    var hasWebView: bool
    var initialUri: string
    var isPopupWindow: bool
    var isClosed: bool
    var fullScreenAllowed: bool
    /** `m_containsFullscreenElement`: whether the page was last seen holding a full-screen element. */
    var containsFullScreenElement: bool
    var aadSsoEnabled: bool
    var creationMode: CommandId
    var refCount: UInt32

    /** The registry owns each component once, and the kept settings component is not also in it. */
    ghost predicate Valid()
      reads this
    {
      && DistinctIds(components)
      && IdsBelow(components, nextComponentId)
      && (oldSettingsComponent.Some? ==>
            && oldSettingsComponent.value.id < nextComponentId
            && forall j :: 0 <= j < |components| ==> components[j].id != oldSettingsComponent.value.id)
    }

    /**
     * The window constructor. The runtime probe's `HRESULT` and whether it
     * found a version are inputs; the fields that `AppWindow.h` initialises
     * are taken as parameters.
     */
    constructor (
      thread: UiThread, creationMode: CommandId, initialUri: string, isMainWindow: bool,
      customWindowRect: bool, windowRect: Rect, shouldHaveToolbar: bool,
      versionHr: int, hasVersion: bool,
      initialRefCount: UInt32, fullScreenAllowed: bool, aadSsoEnabled: bool)
      requires thread.Valid()
      modifies thread
      ensures Valid() && thread.Valid()
      ensures this.thread == thread && thread.windows == old(thread.windows) + {this}
      ensures thread.appInstances == old(thread.appInstances) + 1
      ensures placement == WindowPlacement(customWindowRect, windowRect)
      ensures hasToolbar == shouldHaveToolbar
      ensures components == [] && oldSettingsComponent.None?
      ensures !hasWebView && !isPopupWindow && !isClosed
      ensures this.creationMode == creationMode && this.initialUri == initialUri
      ensures this.fullScreenAllowed == fullScreenAllowed && this.aadSsoEnabled == aadSsoEnabled
      ensures !containsFullScreenElement
      ensures refCount == if StartupPlan(versionHr, hasVersion, isMainWindow) == DownloadRuntime
                          then AddUInt32(initialRefCount, 1) else initialRefCount
    {
      this.thread := thread;
      this.placement := WindowPlacement(customWindowRect, windowRect);
      this.hasToolbar := shouldHaveToolbar;
      this.components := [];
      this.nextComponentId := 1;
      this.oldSettingsComponent := None;
      this.hasWebView := false;
      this.initialUri := initialUri;
      this.isPopupWindow := false;
      this.isClosed := false;
      this.fullScreenAllowed := fullScreenAllowed;
      this.containsFullScreenElement := false;
      this.aadSsoEnabled := aadSsoEnabled;
      this.creationMode := creationMode;
      this.refCount := initialRefCount;
      new;
      thread.WindowCreated(this);
      if StartupPlan(versionHr, hasVersion, isMainWindow) == DownloadRuntime {
        AddRef();
      }
    }

    /**
     * `NewComponent<T>`: a freshly allocated component of class `kind`,
     * appended to the registry.
     */
    method NewComponent(kind: ComponentKind) returns (c: Component)
      requires Valid()
      modifies this`components, this`nextComponentId
      ensures Valid()
      ensures c.kind == kind
      ensures forall j :: 0 <= j < |old(components)| ==> old(components)[j].id != c.id
      ensures components == old(components) + [c]
    {
      c := Component(nextComponentId, kind);
      components := components + [c];
      nextComponentId := nextComponentId + 1;
    }

    /**
     * `DeleteComponent`: erases the first entry with the given address and
     * keeps the order of the rest; an address not in the list changes nothing.
     */
    method DeleteComponent(ptr: nat)
      requires Valid()
      modifies this`components
      ensures Valid()
      ensures match FirstMatch(old(components), SamePointer(ptr))
              case None => components == old(components)
              case Some(k) => components == Without(old(components), k)
    {
      var i := 0;
      while i < |components|
        invariant 0 <= i <= |components|
        invariant components == old(components)
        invariant forall j :: 0 <= j < i ==> !Matches(components[j], SamePointer(ptr))
      {
        if components[i].id == ptr {
          WithoutRemovesComponent(components, i);
          components := Without(components, i);
          return;
        }
        i := i + 1;
      }
    }

    /**
     * `DeleteAllComponents`: pops from the back until the list is empty, so
     * the components are destroyed in reverse order of creation. `destroyed`
     * lists them in the order their destructors run.
     */
    method DeleteAllComponents() returns (destroyed: seq<Component>)
      requires Valid()
      modifies this`components
      ensures Valid()
      ensures components == []
      ensures destroyed == Reversed(old(components))
    {
      destroyed := [];
      while components != []
        invariant |components| + |destroyed| == |old(components)|
        invariant components == old(components)[..|components|]
        invariant forall j :: 0 <= j < |destroyed| ==>
                    destroyed[j] == old(components)[|old(components)| - 1 - j]
        invariant Valid()
      {
        var last := components[|components| - 1];
        components := components[..|components| - 1];
        destroyed := destroyed + [last];
      }
    }

    /**
     * `MoveComponent<T>`: takes the first component of class `kind` out of
     * the registry and hands it to the caller, or returns null when there is none.
     */
    method MoveComponent(kind: ComponentKind) returns (moved: Option<Component>)
      requires Valid()
      modifies this`components
      ensures Valid()
      ensures match FirstMatch(old(components), OfType(kind))
              case None => moved.None? && components == old(components)
              case Some(k) => moved == Some(old(components)[k]) && components == Without(old(components), k)
      ensures moved.Some? ==> forall j :: 0 <= j < |components| ==> components[j].id != moved.value.id
    {
      var i := 0;
      while i < |components|
        invariant 0 <= i <= |components|
        invariant components == old(components)
        invariant forall j :: 0 <= j < i ==> !Matches(components[j], OfType(kind))
      {
        if components[i].kind == kind {
          moved := Some(components[i]);
          WithoutRemovesComponent(components, i);
          components := Without(components, i);
          return;
        }
        i := i + 1;
      }
      moved := None;
    }

    /**
     * The registry part of `CloseWebView`: every component is destroyed, last
     * created first, and the window no longer has a WebView.
     */
    method CloseWebView() returns (destroyed: seq<Component>)
      requires Valid()
      modifies this`components, this`hasWebView
      ensures Valid() && components == [] && !hasWebView
      ensures destroyed == Reversed(old(components))
    {
      destroyed := DeleteAllComponents();
      hasWebView := false;
    }

    /**
     * The registry part of a successful `OnCreateCoreWebView2ControllerCompleted`:
     * the six standard components are created in a fixed order, and the kept
     * settings component, whose properties the new one copied, is released.
     */
    method CreateWebViewComponents() returns (released: Option<Component>)
      requires Valid()
      modifies this`components, this`nextComponentId, this`oldSettingsComponent, this`hasWebView
      ensures Valid() && hasWebView
      ensures released == old(oldSettingsComponent) && oldSettingsComponent.None?
      ensures |components| == |old(components)| + |WebViewComponentKinds|
      ensures components[..|old(components)|] == old(components)
      ensures forall i :: 0 <= i < |WebViewComponentKinds| ==>
                components[|old(components)| + i].kind == WebViewComponentKinds[i]
    {
      hasWebView := true;
      var c0 := NewComponent(FileComponent);
      var c1 := NewComponent(ProcessComponent);
      var c2 := NewComponent(ScriptComponent);
      var c3 := NewComponent(SettingsComponent);
      assert components == old(components) + [c0, c1, c2, c3];
      released := oldSettingsComponent;
      oldSettingsComponent := None;
      var c4 := NewComponent(ViewComponent);
      var c5 := NewComponent(ControlComponent);
      ghost var added := [c0, c1, c2, c3, c4, c5];
      assert components == old(components) + added;
      assert forall i :: 0 <= i < |added| ==> added[i].kind == WebViewComponentKinds[i];
    }

    /**
     * `ReinitializeWebView`, as far as the registry goes: the first settings
     * component is moved out of the registry before the WebView is closed, so
     * it survives the close; every other component is destroyed, last created
     * first. Assigning the moved component releases a settings component kept
     * from an earlier attempt, before anything else is destroyed.
     */
    method ReinitializeWebView() returns (destroyed: seq<Component>)
      requires Valid()
      modifies this`components, this`oldSettingsComponent, this`hasWebView
      ensures Valid() && components == [] && !hasWebView
      ensures match FirstMatch(old(components), OfType(SettingsComponent))
              case None => oldSettingsComponent.None?
              case Some(k) => oldSettingsComponent == Some(old(components)[k])
      ensures oldSettingsComponent.Some? ==>
                forall j :: 0 <= j < |destroyed| ==> destroyed[j] != oldSettingsComponent.value
      ensures old(oldSettingsComponent).Some? ==>
                |destroyed| >= 1 && destroyed[0] == old(oldSettingsComponent).value
      ensures destroyed ==
                (if old(oldSettingsComponent).Some? then [old(oldSettingsComponent).value] else [])
                + Reversed(match FirstMatch(old(components), OfType(SettingsComponent))
                           case None => old(components)
                           case Some(k) => Without(old(components), k))
    {
      ghost var kept := match FirstMatch(components, OfType(SettingsComponent))
                        case None => components
                        case Some(k) => Without(components, k);
      var moved := MoveComponent(SettingsComponent);
      assert components == kept;
      var released := oldSettingsComponent;
      oldSettingsComponent := moved;
      var closed := CloseWebView();
      assert closed == Reversed(kept);
      destroyed := (if released.Some? then [released.value] else []) + closed;
      if moved.Some? {
        forall j | 0 <= j < |destroyed| ensures destroyed[j] != moved.value {
          if released.Some? && j == 0 {
            assert destroyed[j] == released.value;
          } else {
            var i := if released.Some? then j - 1 else j;
            assert destroyed[j] == closed[i];
          }
        }
      }
    }

    /** `IDM_TOGGLE_FULLSCREEN_ALLOWED`. */
    method ToggleFullScreenAllowed()
      modifies this`fullScreenAllowed
      ensures fullScreenAllowed == !old(fullScreenAllowed)
    {
      fullScreenAllowed := !fullScreenAllowed;
    }

    /** `ToggleAADSSO`: applies to WebViews created after all current ones are closed. */
    method ToggleAadSso()
      modifies this`aadSsoEnabled
      ensures aadSsoEnabled == !old(aadSsoEnabled)
    {
      aadSsoEnabled := !aadSsoEnabled;
    }

    /** The creation-mode menu commands store the command's own identifier as the new mode. */
    method SetCreationMode(mode: CommandId)
      modifies this`creationMode
      ensures creationMode == mode
    {
      creationMode := mode;
    }

    /**
     * The first navigation once the WebView exists: an empty initial URI is
     * replaced by the start page, and the stored value is what every later
     * re-creation of the WebView navigates to.
     */
    method NavigateToInitialUri(startPageUri: string) returns (nav: Option<Effect>)
      modifies this`initialUri
      ensures nav == InitialNavigation(old(initialUri), startPageUri)
      ensures initialUri == if old(initialUri) == [] then startPageUri else old(initialUri)
      ensures nav.None? <==> initialUri == NoInitialNavigation
      ensures nav.Some? ==> nav.value == Navigate(initialUri)
    {
      if initialUri == [] {
        initialUri := startPageUri;
      }
      if initialUri != NoInitialNavigation {
        nav := Some(Navigate(initialUri));
      } else {
        nav := None;
      }
    }

    /**
     * The ContainsFullScreenElementChanged handler: while full screen is
     * allowed, the window records the page's state, which `ResizeEverything`
     * reads to decide whether to lay out the toolbar, and follows it.
     * While it is not allowed, nothing is recorded.
     */
    method OnContainsFullScreenElementChanged(pageContainsFullScreenElement: bool)
      returns (effect: Option<Effect>)
      modifies this`containsFullScreenElement
      ensures effect == FullScreenChanged(fullScreenAllowed, pageContainsFullScreenElement)
      ensures containsFullScreenElement ==
                if fullScreenAllowed then pageContainsFullScreenElement else old(containsFullScreenElement)
      ensures effect.Some? ==> (effect.value == EnterFullScreen <==> containsFullScreenElement)
    {
      if fullScreenAllowed {
        containsFullScreenElement := pageContainsFullScreenElement;
        if containsFullScreenElement {
          effect := Some(EnterFullScreen);
        } else {
          effect := Some(ExitFullScreen);
        }
      } else {
        effect := None;
      }
    }

    /** `WM_NCDESTROY`: the window is marked closed and the thread's count goes down. */
    method OnNcDestroy() returns (postQuit: bool)
      requires thread.Valid() && this in thread.windows
      modifies this`isClosed, thread
      ensures isClosed
      ensures thread.Valid() && thread.windows == old(thread.windows) - {this}
      ensures postQuit <==> thread.windows == {}
    {
      isClosed := true;
      postQuit := thread.WindowDestroyed(this);
    }

    /**
     * `HandleWindowMessage`: every component, in registry order, gets the
     * message first, and the first one that claims it ends the dispatch.
     * `accepting` holds the addresses of the components whose handlers would
     * claim it. Only when all decline does the window handle it itself.
     */
    method HandleWindowMessage(msg: Message, accepting: set<nat>, ctrlDown: bool, win10: bool)
      returns (reply: Reply, byComponent: Option<nat>)
      ensures byComponent == FirstMatch(components, AcceptsMessage(accepting))
      ensures byComponent.Some? <==> exists j :: 0 <= j < |components| && components[j].id in accepting
      ensures byComponent.Some? ==>
                && byComponent.value < |components|
                && components[byComponent.value].id in accepting
                && (forall j :: 0 <= j < byComponent.value ==> components[j].id !in accepting)
                && reply == Reply(true, [])
      ensures byComponent.None? ==> reply == WindowMessage(msg, ctrlDown, hasWebView, creationMode, win10)
    {
      var i := 0;
      while i < |components|
        invariant 0 <= i <= |components|
        invariant forall j :: 0 <= j < i ==> components[j].id !in accepting
      {
        if components[i].id in accepting {
          return Reply(true, []), Some(i);
        }
        i := i + 1;
      }
      reply := WindowMessage(msg, ctrlDown, hasWebView, creationMode, win10);
      byComponent := None;
    }

    /** `InstallComplete`, called by the worker thread with its result code. */
    method InstallComplete(code: int) returns (action: Option<FollowUp>)
      ensures action == InstallFollowUp(isClosed, code)
      ensures isClosed ==> action.None?
    {
      if !isClosed {
        if code == InstallSucceeded {
          return Some(ScheduleInitializeWebView);
        } else if code == InstallFailed {
          return Some(ReportInstallFailed);
        } else if code == DownloadFailed {
          return Some(ReportDownloadFailed);
        }
      }
      return None;
    }

    /** `AddRef`: a 32-bit increment. */
    method AddRef()
      modifies this`refCount
      ensures refCount == AddUInt32(old(refCount), 1)
    {
      refCount := AddUInt32(refCount, 1);
    }

    /** `Release`: a 32-bit decrement; the window is deleted when the count reaches zero. */
    method Release() returns (deleted: bool)
      modifies this`refCount
      ensures refCount == SubUInt32(old(refCount), 1)
      ensures deleted <==> refCount == 0
    {
      refCount := SubUInt32(refCount, 1);
      deleted := refCount == 0;
    }

    /**
     * The end of the download worker: it reports its code to the window and
     * then drops the reference the constructor took for it.
     */
    method FinishDownloadWorker(code: int) returns (action: Option<FollowUp>, deleted: bool)
      modifies this`refCount
      ensures action == InstallFollowUp(isClosed, code)
      ensures refCount == SubUInt32(old(refCount), 1)
      ensures deleted <==> old(refCount) == 1
    {
      action := InstallComplete(code);
      deleted := Release();
    }

    /**
     * The NewWindowRequested handler: opens a popup window on the same thread
     * with no initial navigation, placed by the requested features when they
     * give both position and size and by the system otherwise.
     */
    method OnNewWindowRequested(f: WindowFeatures, versionHr: int, hasVersion: bool,
                                initialRefCount: UInt32, fullScreenAllowedDefault: bool, aadSsoDefault: bool)
      returns (popup: AppWindow)
      requires thread.Valid()
      modifies thread
      ensures fresh(popup) && popup.Valid() && thread.Valid()
      ensures thread.windows == old(thread.windows) + {popup}
      ensures popup.isPopupWindow && popup.initialUri == NoInitialNavigation
      ensures popup.creationMode == creationMode && popup.thread == thread
      ensures var args := NewWindowRect(f);
              && (args.useDefaultWindow ==> popup.placement == DefaultPlacement && popup.hasToolbar)
              && (!args.useDefaultWindow ==>
                    popup.placement == WindowPlacement(true, args.windowRect)
                    && popup.hasToolbar == f.shouldDisplayToolbar)
    {
      var args := NewWindowRect(f);
      if !args.useDefaultWindow {
        popup := new AppWindow(thread, creationMode, NoInitialNavigation, false, true, args.windowRect,
                               args.shouldHaveToolbar, versionHr, hasVersion,
                               initialRefCount, fullScreenAllowedDefault, aadSsoDefault);
      } else {
        popup := new AppWindow(thread, creationMode, NoInitialNavigation, false, false, Rect(0, 0, 0, 0),
                               true, versionHr, hasVersion,
                               initialRefCount, fullScreenAllowedDefault, aadSsoDefault);
      }
      popup.isPopupWindow := true;
    }
  }
}
