# WebView2 sample application window, modelled in Dafny

This project models the part of the WebView2 API sample's main window
(`AppWindow`) that is the application's own logic rather than calls into
Win32 or the WebView2 runtime:

- the **component registry** `m_components`: an ordered list of owned UI
  components that the window creates, erases one at a time, moves out, or
  destroys all at once;
- the **popup geometry** of the NewWindowRequested handler: the `RECT` a
  `window.open` popup gets from the requested window features, with the
  100-pixel minimum width and height;
- the **local path and URI helpers** `GetLocalUri` and `GetLocalPath`;
- the **message and command decisions**: the auto-repeat filter and Ctrl
  accelerators of `WM_KEYDOWN`, the dispatch of `WM_COMMAND` to the WebView
  commands and then the app commands, the TypeScript scenario's fall-through,
  the other window messages, and the WebView event handlers' choices;
- the **runtime install path**: the worker thread's result codes and what the
  window does with them, and the constructor's choice between initialising
  the WebView and downloading the runtime;
- the **state the window keeps**: its flags, creation mode, reference count,
  and the per-thread count of open windows that quits the message loop when
  the last window is destroyed.

Side effects that go to Win32 or to the WebView (navigation, dialogs, new
windows, resizing, posting quit) are returned as `Effect` tags, in the order
the handler performs them. The executable's path, the runtime-version probe,
the result of the download and of `ShellExecuteEx`, the Ctrl key state, the
user's answer to a message box and each component's own answer to a window
message are inputs.

Files, one module each: `wrappers.dfy` (Option), `win32.dfy` (the C integer
widths and their wrap-around), `registry.dfy`, `geometry.dfy`, `paths.dfy`,
`commands.dfy`, `install.dfy`, and `app_window.dfy` (the classes `UiThread`
and `AppWindow`).

Some places where the model cannot follow the code come from `AppWindow.h`,
which is not part of this model: the constructor therefore takes the initial
reference count and the full-screen and single-sign-on flags as parameters,
while `m_isPopupWindow`, `m_isClosed` and `m_containsFullscreenElement` are
taken to start false. The popup's default path is modelled as
`isMainWindow = false`, no custom rectangle and a toolbar, which is what the
two-argument constructor call leaves to the header's default arguments.
Others come from `Resource.h` (the numeric command identifiers) and from code
outside this model (`AppStartPage::GetUri`, taken as an input), and some are
deliberate simplifications: concurrency, `dynamic_cast`, and a few integer
widths. "## Left out" lists each of them.

## Model

| member | source | states |
|---|---|---|
| Registry.FirstMatch | SampleApps/WebView2APISample/AppWindow.cpp:1036-1043 | the front-to-back scan stops at the first entry that matches (same address, or `dynamic_cast` succeeds); no result exactly when no entry matches |
| Registry.Without | SampleApps/WebView2APISample/AppWindow.cpp:1040 | `erase` keeps the entries before the position, moves the later ones down by one, and removes exactly one copy of the erased entry |
| Registry.Reversed | SampleApps/WebView2APISample/AppWindow.cpp:1049-1052 | the order in which the `pop_back` loop destroys the entries: the last entry first, every entry at its mirrored position |
| Registry.ReversedIsPermutation | SampleApps/WebView2APISample/AppWindow.cpp:1049-1052 | destroying from the back destroys every entry exactly once, nothing more and nothing less |
| Registry.WithoutRemovesComponent | SampleApps/WebView2APISample/AppWindow.cpp:1034-1044 | erasing from a list of uniquely owned components keeps them unique, and the erased component no longer occurs |
| Registry.DeletedPointerIsGone | SampleApps/WebView2APISample/AppWindow.cpp:1034-1044 | after `DeleteComponent` no entry has the given address, the list shrinks by one exactly when the address was present, and nothing is added |
| AppWindows.AppWindow.DeleteComponent | SampleApps/WebView2APISample/AppWindow.cpp:1034-1044 | erases exactly the first entry with the given address and keeps the order of all others; with no such entry the list is unchanged |
| AppWindows.AppWindow.DeleteAllComponents | SampleApps/WebView2APISample/AppWindow.cpp:1046-1053 | the list ends empty, and `destroyed` is exactly the old list reversed: the components are destroyed from the back, in reverse order of creation |
| AppWindows.AppWindow.MoveComponent | SampleApps/WebView2APISample/AppWindow.cpp:1055-1067 | returns the first component of the requested class and erases just that entry, order otherwise kept; returns null and changes nothing when there is none |
| AppWindows.AppWindow.NewComponent | SampleApps/WebView2APISample/AppWindow.cpp:682-694 | a new component with a fresh address is appended at the end of the registry |
| AppWindows.AppWindow.CreateWebViewComponents | SampleApps/WebView2APISample/AppWindow.cpp:680-694 | the six standard components are appended in the order File, Process, Script, Settings, View, Control, and the kept settings component is released |
| AppWindows.AppWindow.CloseWebView | SampleApps/WebView2APISample/AppWindow.cpp:965-975 | closing the WebView destroys exactly the old list reversed, last created first, and leaves the window without a WebView |
| AppWindows.AppWindow.ReinitializeWebView | SampleApps/WebView2APISample/AppWindow.cpp:735-741 | the first settings component is moved out before the close and survives it. A settings component kept from before is destroyed first. Then every other component is destroyed, last created first: the list without the moved entry, reversed |
| AppWindows.AppWindow.HandleWindowMessage | SampleApps/WebView2APISample/AppWindow.cpp:213-329 | components get first refusal in registry order: the one that ends dispatch is the first that claims the message, as `FirstMatch` defines it; only when all decline does the window's own handling run |
| Commands.WindowMessage | SampleApps/WebView2APISample/AppWindow.cpp:226-329 | an auto-repeated key-down never runs an accelerator; a fresh one runs the action `AcceleratorFor` gives its key and is handled exactly when there is one; `WM_COMMAND` has the effects of whichever command handler takes it and is handled exactly when one does; `WM_SIZE` is handled only for a non-zero size, `WM_ENDSESSION` only when the session ends, and paint, DPI change, queued tasks and `WM_QUERYENDSESSION` always; `WM_NCDESTROY` counts the window down but is left to the default procedure |
| Commands.AcceleratorFor | SampleApps/WebView2APISample/AppWindow.cpp:524-548 | an action exists exactly when Ctrl is held and the key is N, Q, S, T or W, and it is one of new window, close window, screenshot, new thread, close WebView |
| Commands.WebViewCommand | SampleApps/WebView2APISample/AppWindow.cpp:333-411 | a WebView command is handled exactly when there is a WebView and the identifier is one of the WebView commands; without a WebView nothing is handled; only the clean-up close deletes the user data folder, only the plain close closes without it, and only the after-creation version command shows the version |
| Commands.TypeScriptFallsThroughToAuthentication | SampleApps/WebView2APISample/AppWindow.cpp:382-392 | the TypeScript scenario navigates to its local page and then performs everything the authentication scenario performs |
| Commands.AppCommand | SampleApps/WebView2APISample/AppWindow.cpp:415-473 | an app command is handled exactly when the identifier is an app command (WinComp mode only in the Windows 10 build), with or without a WebView; a creation-mode command sets exactly its own identifier as the mode, no other command sets a mode, and new windows and threads get the current mode |
| Commands.Command | SampleApps/WebView2APISample/AppWindow.cpp:322-325 | `WM_COMMAND` tries the WebView commands first and the app commands only when those decline; it is handled exactly when either set contains the command |
| Commands.CommandSetsDisjoint | SampleApps/WebView2APISample/AppWindow.cpp:322-325 | no identifier belongs to both command handlers |
| Commands.FullScreenChanged | SampleApps/WebView2APISample/AppWindow.cpp:803-824 | the window enters or leaves full screen with the page, and only while full screen is allowed |
| Commands.WindowCloseRequested | SampleApps/WebView2APISample/AppWindow.cpp:895-903 | `window.close()` closes the window exactly when it is a popup |
| Commands.OfferedAnswers | SampleApps/WebView2APISample/AppWindow.cpp:916-924 | the new-version prompt offers Yes/No/Cancel exactly when there is a WebView, and OK otherwise |
| Commands.NewBrowserVersionAvailable | SampleApps/WebView2APISample/AppWindow.cpp:912-943 | Yes restarts the app, No re-creates the WebViews, OK or Cancel does nothing; without a WebView nothing happens |
| Commands.InitialNavigation | SampleApps/WebView2APISample/AppWindow.cpp:716-727 | an empty initial URI means the start page, and `"none"` means no first navigation |
| Commands.StartPageKept | SampleApps/WebView2APISample/AppWindow.cpp:716-727 | once the start page has been stored as the initial URI, every later creation of the WebView navigates where the first one did, whatever the start page is then |
| AppWindows.AppWindow.NavigateToInitialUri | SampleApps/WebView2APISample/AppWindow.cpp:716-727 | an empty initial URI is replaced by the start page and kept; the navigation is `InitialNavigation`'s, to the stored URI, and none exactly when it is `"none"` |
| AppWindows.AppWindow.OnContainsFullScreenElementChanged | SampleApps/WebView2APISample/AppWindow.cpp:803-824 | while full screen is allowed the page's state is recorded and followed (entering exactly when it holds a full-screen element); otherwise nothing is recorded or done |
| Geometry.ClampSize | SampleApps/WebView2APISample/AppWindow.cpp:866-868 | a requested width or height is raised to at least 100 and never lowered |
| Geometry.NewWindowRect | SampleApps/WebView2APISample/AppWindow.cpp:841-868 | position and size are used only when both are present, otherwise all stay 0 and the default window is used; right and bottom lie the clamped size past left and top, modulo 2^32 |
| Geometry.WrappedExtent | SampleApps/WebView2APISample/AppWindow.cpp:865-868 | an edge computed in unsigned 32-bit arithmetic and stored in a `LONG` is still the extent past the start, modulo 2^32 |
| Geometry.WindowPlacement | SampleApps/WebView2APISample/AppWindow.cpp:114-126 | a custom rectangle becomes the window's position and size, otherwise the system default is used |
| Geometry.PopupOpensWithClampedSize | SampleApps/WebView2APISample/AppWindow.cpp:855-874 | with position and size given, the popup opens at the requested position with width and height each the maximum of the request and 100 |
| Geometry.DefaultWindowWithoutFullFeatures | SampleApps/WebView2APISample/AppWindow.cpp:853-878 | without both position and size the default window path is taken |
| AppWindows.AppWindow.OnNewWindowRequested | SampleApps/WebView2APISample/AppWindow.cpp:832-880 | a popup window is created on the same thread with no initial navigation, marked as a popup, counted among the thread's windows, and placed by the features or by the system |
| Paths.ForwardSlashes | SampleApps/WebView2APISample/AppWindow.cpp:1101 | every backslash becomes exactly one forward slash and every other character stays |
| Paths.ForwardSlashesIdempotent | SampleApps/WebView2APISample/AppWindow.cpp:1101 | converting separators twice gives the same as once |
| Paths.LocalUri | SampleApps/WebView2APISample/AppWindow.cpp:1097-1103 | the URI starts with `https://appassets.example/`, contains no backslash, and is the prefix's length plus the path's length long, character for character |
| Paths.LocalUriOfSlashPath | SampleApps/WebView2APISample/AppWindow.cpp:1097-1103 | a path without backslashes is appended to the root URL unchanged |
| Paths.FindLastOf | SampleApps/WebView2APISample/AppWindow.cpp:1092 | `find_last_of` gives the index of the last backslash, with none after it, or `npos` exactly when there is none |
| Paths.LocalPath | SampleApps/WebView2APISample/AppWindow.cpp:1081-1096 | with `keep_exe_path` the result is the executable path followed by the relative path; otherwise the executable path up to and including its last backslash followed by the relative path |
| Paths.LocalPathWithoutFolder | SampleApps/WebView2APISample/AppWindow.cpp:1090-1094 | when the executable path has no backslash, `npos + 1` wraps to 0 and the result is just the relative path |
| Paths.FolderPrefixUnique | SampleApps/WebView2APISample/AppWindow.cpp:1092-1093 | the folder part of a path is unique, so the splice point is determined |
| Paths.UserDataFolder | SampleApps/WebView2APISample/AppWindow.cpp:985-986 | the user data folder is the executable path followed by `.WebView2` |
| Install.DownloadAndInstallCode | SampleApps/WebView2APISample/AppWindow.cpp:48-91 | the worker yields 2 exactly when the download fails, 0 exactly when the installer starts, and 1 exactly when the download succeeds but the installer does not start |
| Install.InstallFollowUp | SampleApps/WebView2APISample/AppWindow.cpp:1276-1295 | nothing happens once the window is closed; otherwise 0 schedules WebView initialisation and 1 and 2 give their distinct failure reports, and any other code does nothing |
| Install.WorkerOutcomeReported | SampleApps/WebView2APISample/AppWindow.cpp:52-90 | every way the worker ends gives exactly one follow-up on an open window, initialisation only after a successful install |
| Install.StartupPlan | SampleApps/WebView2APISample/AppWindow.cpp:145-169 | with a runtime present the WebView is initialised; without one only the main window downloads it and other windows report it missing |
| AppWindows.AppWindow.constructor | SampleApps/WebView2APISample/AppWindow.cpp:94-169 | a new window is counted on its thread, placed as asked, starts with no components and no WebView, and takes a reference for the download worker exactly when it starts one |
| AppWindows.AppWindow.InstallComplete | SampleApps/WebView2APISample/AppWindow.cpp:1276-1295 | the follow-up the window performs for the worker's code, nothing once the window is closed |
| AppWindows.AppWindow.FinishDownloadWorker | SampleApps/WebView2APISample/AppWindow.cpp:88-89 | the worker reports its code and then drops its reference, which deletes the window exactly when it was the last one |
| AppWindows.AppWindow.AddRef | SampleApps/WebView2APISample/AppWindow.cpp:1257-1260 | the reference count goes up by one, modulo 2^32 |
| AppWindows.AppWindow.Release | SampleApps/WebView2APISample/AppWindow.cpp:1262-1269 | the reference count goes down by one, modulo 2^32, and the window is deleted exactly when it reaches zero |
| AppWindows.AppWindow.OnNcDestroy | SampleApps/WebView2APISample/AppWindow.cpp:276-286 | a destroyed window is marked closed and leaves its thread's count; quit is posted exactly when no window of the thread remains |
| AppWindows.UiThread.constructor | SampleApps/WebView2APISample/AppWindow.cpp:42 | a thread starts with no windows counted |
| AppWindows.UiThread.WindowCreated | SampleApps/WebView2APISample/AppWindow.cpp:109 | creating a window adds it to the thread's count |
| AppWindows.UiThread.WindowDestroyed | SampleApps/WebView2APISample/AppWindow.cpp:281-284 | destroying a window removes it from the count and asks for quit exactly when it was the last one |
| AppWindows.AppWindow.ToggleFullScreenAllowed | SampleApps/WebView2APISample/AppWindow.cpp:448-457 | the full-screen-allowed flag is flipped |
| AppWindows.AppWindow.ToggleAadSso | SampleApps/WebView2APISample/AppWindow.cpp:489-500 | the single-sign-on flag is flipped |
| AppWindows.AppWindow.SetCreationMode | SampleApps/WebView2APISample/AppWindow.cpp:436-444 | the window's creation mode becomes the given identifier; `Commands.AppCommand` states that only a creation-mode command asks for this, and always with its own identifier |
| Win32.AddUInt32 | SampleApps/WebView2APISample/AppWindow.cpp:866 | unsigned 32-bit addition agrees with the true sum modulo 2^32 and equals it when there is no overflow |
| Win32.SubUInt32 | SampleApps/WebView2APISample/AppWindow.cpp:1264 | the decrement read back as `uint32_t` agrees with the true difference modulo 2^32 |
| Win32.AsLong | SampleApps/WebView2APISample/AppWindow.cpp:865 | storing a `UINT32` in a `LONG` keeps the bits: the value agrees modulo 2^32 and is unchanged below 2^31 |
| Win32.TruncateToUInt32 | SampleApps/WebView2APISample/AppWindow.cpp:314 | `(UINT)wParam` keeps the low 32 bits |

## Left out

- Window creation, class registration, the message loop, `RunAsync`'s task posting and painting are Win32 plumbing; they appear only as effect tags.
- All WebView2 COM calls (environment and controller creation, `Navigate`, event registration, deferrals, virtual host mapping) are vendor APIs. The WebView is modelled only as whether the window has one. A navigation to a page under the assets folder is the tag `NavigateLocal(path)`, standing for a navigation to `Paths.LocalUri(path)`. The start page's URI (`AppStartPage::GetUri`) is an input.
- `InitializeWebView`'s composition-device and dispatcher-queue set-up, its environment options and its error reports are left out: they depend on dynamic DLL loading and the runtime. `ReinitializeWebView` models only the registry and WebView state it changes.
- `ReinitializeWebViewWithNewBrowser` and `RestartApp` wait for the browser process and start a new process; they are left out beyond the `ReinitializeWithNewBrowser` and `RestartApp` tags.
- `CloseWebView`'s clean-up of the user data folder (`_wfullpath`, the confirmation box, `DeleteFileRecursive` through `IFileOperation`) is file-system I/O; only the folder's path is modelled.
- The actual download (`URLDownloadToFile`) and `ShellExecuteEx` are I/O: their results are inputs.
- `AddRef` and `Release` use interlocked operations for thread safety; the model is a sequential 32-bit counter.
- `AppWindows.AppWindow.FinishDownloadWorker`: `InstallComplete` runs on the download worker thread, while the UI thread sets the closed flag on `WM_NCDESTROY`. The model treats the worker's closed-flag check and its follow-up as one step, ordered before or after the UI thread's close. A close that falls between the check and the follow-up (the worker then still posts `RunAsync` or shows a message box on a closed window) is not modelled.
- `EnterFullScreen`, `ExitFullScreen`, `ResizeEverything` and the toolbar layout depend on window and monitor state; they are effect tags. `ResizeEverything`'s reading of the recorded full-screen state is not modelled. That state is taken to start false, the header's initial value not being available.
- `GetDpiScale` and `GetTextScale` are floating point.
- `ChangeLanguage`, the About dialog and all message boxes are UI; they are effect tags.
- `NewComponent<T>` and `GetComponent<T>` are templates in `AppWindow.h`, which is not part of this model. `NewComponent` is modelled as appending a component with a fresh address. `SaveScreenshot` saves only when a `FileComponent` exists, which is not modelled.
- The numeric values of the `IDM_` identifiers are in `Resource.h`, which is not part of this model. Commands are taken as already decoded from `LOWORD(wParam)`, with `Unlisted` for any other value.
- `dynamic_cast` is modelled as "the component's class is the requested class": the component classes are treated as unrelated to one another.
- `s_appInstances` is a `size_t`; it is modelled unbounded, as it cannot reach 2^64 windows.
- The executable path that `GetModuleFileNameW` fills is taken to be shorter than `MAX_PATH`; its truncation of longer paths is not modelled.
- `Geometry.PopupOpensWithClampedSize`: proved only when `left + size` and `top + size` stay below 2^31. Beyond that the edge wraps to a negative `LONG` and the width holds only modulo 2^32, as `Geometry.NewWindowRect` states. The subtraction `right - left` for `CreateWindowExW` is taken in unbounded arithmetic.
