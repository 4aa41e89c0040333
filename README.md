# Live chat window: overlay input, window lookup and start dialog

This project models the logic of `live_chat.py`, a small desktop app. The app shows a livestream's
web page in a frameless, always-on-top host window (`LiveApp`). The page is rendered by an
external browser window, which the app finds by title and embeds in the host. A translucent
overlay window (`OverlayWindow`) lies over the host and takes all pointer input. Dragging
anywhere on it moves the host. Pressing its close button asks the app to exit. Before any of
this, a start dialog picks the platform (Bilibili or YouTube) and the live URL, and can save the
URL in a configuration map.

Modules:

- `Wrappers`: `Option`, which stands for Python's `None`-or-value.
- `Geometry`: integer points, and rectangles stored as `QRect(x, y, w, h)`. The inclusive
  right and bottom corners that Qt keeps are derived from them, and `Contains` is
  `QRect::contains` on those corners.
- `Platforms`: the per-platform tables. These are the close button rectangle, the app size,
  the start page and the configuration key.
- `WindowLocator`: `find_hwnd` as a loop over the enumerated top-level windows. It is proved
  against `LastMatch`, a reference definition.
- `OverlayModel`: the overlay's press, move and release handlers, written as step functions
  on a `Scene` value. The `Scene` holds the drag anchor, the hover tag, the host's and the
  overlay's top-left corners, and the number of exit requests. `Run` applies a sequence of
  events, and the multi-event lemmas are stated over it.
- `Windows`: the classes `LiveApp` and `OverlayWindow`. Their fields are updated in place.
  Each handler method is proved equal to its step function.
- `StartDialog`: what `on_accept`, the URL preview and the initial URL choice decide, written
  as functions. The `Dialog` class mutates its fields accordingly.

Abstractions. Mouse events arrive with integer local and global points. A press carries a
left/other button. A move carries a "left button held" flag. The operating system's list of
top-level windows is an input sequence of `(handle, visible, title)` records. Shutdown
(`exit_event`) is reduced to a counter of exit requests. When `exit_event` succeeds it never
returns: `sys.exit()` (live_chat.py:347) raises `SystemExit`, which neither its own
`except Exception` (line 348) nor the press handler's (line 280) catches. So in the running
program a second exit request only follows a call whose `driver.quit()` or `close()` failed.
The counter records every request the code issues, without that failure. The host's frame position and its
`x()`/`y()` are one point, because the window is frameless.

Three behaviours of the code are easy to misread, and the model follows the code in each:

- `find_hwnd` returns the **last** matching window in enumeration order, not the first one. Each
  match overwrites the result (live_chat.py:45-46). See `LastMatchIsLast` and `LaterMatchWins`.
- A close press has no guard against repeats. Every left press on the close button calls
  `exit_event` again (live_chat.py:271-275, 341-349). See `ExitRequestsCountClosePresses` and
  `RepeatedCloseIsNotIdempotent`.
- The dialog's initial URL choice (live_chat.py:151-156) never survives construction. The
  constructor ends with `_update_url_preview` (line 172). At that point Bilibili is selected
  and "use saved URL" is ticked, so the field is reset to the saved Bilibili URL, or to ""
  when none is saved. See `InitialFillOverridden`.

## Model

| member | source | states |
|---|---|---|
| Geometry.Contains | live_chat.py:271 | a point is inside `QRect(x, y, w, h)` iff `x <= px < x+w` and `y <= py < y+h`, derived from Qt's inclusive right/bottom corners |
| Platforms.CloseRect | live_chat.py:221-224 | the close button is `QRect(249, 0, 45, 29)` for Bilibili and `QRect(358, 0, 45, 29)` for YouTube |
| Platforms.AppSize | live_chat.py:428-431 | the host, and so the overlay, is 300 x 605 for Bilibili and 410 x 575 for YouTube |
| Platforms.AppUrl | live_chat.py:360-363 | the browser opens Bilibili's home page for Bilibili and the entered URL for YouTube |
| Platforms.ConfigKey | live_chat.py:203 | the URL is saved under `bili_live_url` for Bilibili and `yt_live_url` for YouTube |
| Platforms.CloseButtonInsideOverlay | live_chat.py:428-431 | for both platforms, the close rectangle (lines 221-224) lies entirely inside an overlay of that platform's app size |
| Platforms.ConfigKeysDistinct | live_chat.py:203 | the two platforms save under different configuration keys: the keys are equal iff the platforms are |
| Platforms.StartPages | live_chat.py:360-363 | YouTube opens the entered URL; Bilibili opens its home page whatever URL was entered |
| WindowLocator.LowerChar | live_chat.py:37 | ASCII lower-case folding of one character: `A`-`Z` map to `a`-`z`, every other character is kept |
| WindowLocator.Lower | live_chat.py:45 | `str.lower` as ASCII folding, character by character |
| WindowLocator.SubstringOf | live_chat.py:45 | Python's `needle in hay`: the needle is a prefix of some suffix of the haystack, so "" is in every string |
| WindowLocator.FindHwnd | live_chat.py:34-53 | the loop returns `LastMatch`; the result is None iff no visible window's lower-cased title contains the lower-cased substring; otherwise it is the handle of a matching window with no matching window after it |
| WindowLocator.LastMatchIsLast | live_chat.py:45-46 | the reference result is Some iff some window matches, and then it is the handle of the last match in enumeration order |
| WindowLocator.LastMatchIgnoresCase | live_chat.py:37 | two substrings that fold to the same lower-case text give the same result, so the letter case of the substring does not matter |
| WindowLocator.LastMatchOfLowered | live_chat.py:37 | searching for the lower-cased substring gives the same result as searching for the substring |
| WindowLocator.InvisibleWindowsIgnored | live_chat.py:42-43 | dropping every invisible window from the enumeration leaves the result unchanged |
| WindowLocator.LaterMatchWins | live_chat.py:45-46 | for any two matching windows with no match after the later one, the later one's handle is returned, not the earlier one's (unless they share a handle) |
| WindowLocator.LaterMatchWinsExample | live_chat.py:45-46 | a concrete instance: of the windows "Live - Chrome" (1) and "LIVE room" (2), searching for "live" returns 2 |
| OverlayModel.PressStep | live_chat.py:266-281 | a press never moves the host or the overlay; a left press on the close button clears the hover tag, keeps the anchor and adds one exit request; a left press elsewhere sets the anchor so that host + anchor = global pointer; any other button changes nothing |
| OverlayModel.MoveStep | live_chat.py:283-298 | after a move the highlight is on iff the local point is in the close rectangle; the anchor and exit count are kept; with an anchor and the left button held the host goes to pointer - anchor and the overlay follows; otherwise neither moves |
| OverlayModel.ReleaseStep | live_chat.py:300-305 | a release clears the anchor whatever it was, and nothing else changes |
| OverlayModel.Highlighted | live_chat.py:255-260 | the red highlight over the close button is painted exactly when the hover tag is "close" |
| OverlayModel.RunKeepsSync | live_chat.py:333-337 | if the overlay sits on the host, it still does after any sequence of pointer events |
| OverlayModel.ExitRequestsCountClosePresses | live_chat.py:271-275 | after any sequence of events, the exit requests have grown by exactly the number of left presses on the close button |
| OverlayModel.RepeatedCloseIsNotIdempotent | live_chat.py:341-349 | three left presses on the close button give three exit requests, because `exit_event` has no guard |
| OverlayModel.DragKeepsAnchorUnderPointer | live_chat.py:294-295 | during a run of left-held moves with an anchor set, the anchor never changes and the host ends at the last global pointer minus the anchor |
| OverlayModel.PressThenDrag | live_chat.py:277 | a left press at P0 outside the close button with the host at H0, then left-held moves ending at P1, puts the host at H0 + (P1 - P0) |
| OverlayModel.NoAnchorNoMove | live_chat.py:294 | without an anchor, no run of moves and releases moves the host or the overlay, and no anchor appears |
| OverlayModel.ReleaseEndsDrag | live_chat.py:300-303 | after a release, moves without a new press never move the host, whatever the earlier anchor was |
| OverlayModel.HighlightFollowsLastMove | live_chat.py:255-260 | after any history ending in a move, the highlight is drawn iff that move's local point is in the close rectangle |
| Windows.ExampleSession | live_chat.py:266-303 | a Bilibili session driving the class methods: a press on the close button requests exit without a drag; a press at (10, 10) with the host at (100, 100) and a move to (20, 25) put host and overlay at (110, 115); after a release a held move leaves them there |
| Windows.LiveApp.constructor | live_chat.py:308-331 | a new host is at (0, 0), has no overlay and no exit request, and takes its size from the platform table (lines 428-431) |
| Windows.LiveApp.MoveEvent | live_chat.py:333-339 | with an overlay, the overlay is put at the host's position and nothing else changes; without one, nothing changes |
| Windows.LiveApp.Move | live_chat.py:295 | moving the host sets its position and, through the move event, the overlay's |
| Windows.LiveApp.ExitEvent | live_chat.py:341-349 | each call adds one exit request |
| Windows.LiveApp.AttachOverlay | live_chat.py:380-384 | the new overlay has the host's size and the platform's close rectangle, is registered with the host, sits on the host, has no anchor and nothing hovered |
| Windows.OverlayWindow.constructor | live_chat.py:214-226 | the close rectangle is fixed from the host's platform; no anchor, nothing hovered |
| Windows.OverlayWindow.MousePress | live_chat.py:266-281 | the new state is `PressStep` of the old one; the overlay stays registered with the host |
| Windows.OverlayWindow.MouseMove | live_chat.py:283-298 | the new state is `MoveStep` of the old one, including the host move and the overlay's resynchronisation |
| Windows.OverlayWindow.MouseRelease | live_chat.py:300-305 | the new state is `ReleaseStep` of the old one |
| StartDialog.Get | live_chat.py:185 | Python's `dict.get(key, default)`: the stored value when the key is present, the default otherwise |
| StartDialog.InitialUrl | live_chat.py:151-156 | the first fill is the saved Bilibili URL when that is non-empty, else a saved YouTube URL; it is empty iff both are missing or empty |
| StartDialog.InitialFillOverridden | live_chat.py:151-172 | once the constructor's preview has run, the field shows the saved Bilibili URL; a YouTube URL from the first fill is replaced by "" |
| StartDialog.PreviewText | live_chat.py:182-191 | with "use saved URL" ticked, the field shows the selected platform's saved URL, or "" when none is saved; otherwise it is left as it was |
| StartDialog.PreviewIdempotent | live_chat.py:182-191 | refreshing the preview twice is the same as refreshing it once |
| StartDialog.Accept | live_chat.py:193-209 | the platform is Bilibili iff its radio button is checked; the URL is the field's text; the dialog is accepted iff that text is non-empty; the configuration changes only on acceptance with "save" ticked, and then exactly the chosen platform's key is set to the URL, with every other key kept |
| StartDialog.SavingPreviewedUrlKeepsConfig | live_chat.py:202-204 | saving a URL that the preview filled in from the configuration leaves the configuration unchanged |
| StartDialog.Dialog.constructor | live_chat.py:56-172 | the dialog opens with Bilibili selected, "use saved URL" ticked, "save" not ticked, no platform recorded, and the saved Bilibili URL (or "") in the field |
| StartDialog.Dialog.UpdateUrlPreview | live_chat.py:182-191 | the field becomes `PreviewText` of the widgets' state and its old text |
| StartDialog.Dialog.SelectPlatform | live_chat.py:169-180 | selecting a platform sets the radio button; the preview is refreshed only when the selection changes |
| StartDialog.Dialog.OnAccept | live_chat.py:193-209 | the platform, URL and configuration become those of `Accept`; the platform and URL are recorded even when the URL is empty; the dialog becomes accepted iff the URL is non-empty |

## Left out

- Qt widget plumbing: window flags, stylesheets, layouts, `update()`, the message box on an empty URL, and the painter calls. Painting is reduced to the predicate `Highlighted` (live_chat.py:255).
- The two near-transparent filler widgets (live_chat.py:238-246). They are a rendering workaround with no input behaviour.
- `QApplication.processEvents()` inside the close press (live_chat.py:274). The other events it could dispatch are not modelled.
- Event positions are floating point in Qt and are rounded by `toPoint()`. The model takes integer points as input.
- OverlayModel.PressStep, OverlayModel.MoveStep: Qt's `QPoint` holds 32-bit integers, so its subtraction can wrap around. The model's drag arithmetic is unbounded; the two agree for any position on a real screen.
- Windows.LiveApp.Move: Qt sends a move event only when the position actually changes; the model delivers it on every move. The two differ only for an overlay that was already out of place.
- Geometry.Contains: rectangles have non-negative width and height. Qt's normalisation of negative sizes is not modelled, because every rectangle in the source is a positive constant.
- WindowLocator.FindHwnd: the win32 calls (`EnumWindows`, `IsWindowVisible`, `GetWindowText`) become the input records. A window whose visibility or title read raises is skipped (live_chat.py:47-48); it is modelled as a record with `visible` false. `str.lower` is modelled as ASCII folding only.
- Embedding the browser window (`QWindow.fromWinId`, `createWindowContainer`) is a foreign call with no logic of its own.
- `LiveApp.start_driver_and_embed` apart from the overlay creation: the Selenium driver, the cookie, the navigation and the injected JavaScript (live_chat.py:351-416) are external process and network I/O. Only the start-page table is modelled (`AppUrl`).
- Windows.LiveApp.ExitEvent: quitting the driver, closing the window and `sys.exit` are process control. The model only counts the exit requests.
- Reading and writing the configuration file, `load_dotenv`, the logging `print` override, and the bootstrap with `QTimer` and `sys.exit` (live_chat.py:11-32, 418-435) are I/O and process control.
- The `try/except … print` wrappers around every handler. The model has no exceptions to swallow.
- Windows.OverlayWindow.constructor: the overlay's initial screen position is left to the window system, so the constructor says nothing about it; `AttachOverlay` then places it on the host (live_chat.py:383).
