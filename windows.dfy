/** The host window (`LiveApp`) and the overlay (`OverlayWindow`) as objects
    whose fields the event handlers update in place. Each handler is proved
    against the step function of OverlayModel that describes it. */
module Windows {
  import opened Wrappers
  import opened Geometry
  import opened Platforms
  import opened OverlayModel

  /** The frameless host window that holds the embedded browser window. */
  class LiveApp {
    const platform: Platform
    const url: string
    /** The size the host is resized to before the browser is embedded. */
    const appSize: Size
    /** The host's top-left corner on the screen. */
    var pos: Point
    var overlay: OverlayWindow?
    /** How many times `exit_event` was called. */
    var exitRequests: nat

    /** A host for the platform and URL accepted in the start dialog, placed
        at the screen origin, with no overlay yet. */
    constructor (platform: Platform, url: string)
      ensures this.platform == platform && this.url == url && appSize == AppSize(platform)
      ensures pos == Point(0, 0) && overlay == null && exitRequests == 0
    {
      this.platform := platform;
      this.url := url;
      appSize := AppSize(platform);
      pos := Point(0, 0);
      overlay := null;
      exitRequests := 0;
    }

    /** `moveEvent`: the overlay, when there is one, is put where the host is. */
    method MoveEvent()
      modifies overlay
      ensures overlay != null ==> overlay.pos == pos
      ensures overlay != null ==> overlay.dragPos == old(overlay.dragPos) && overlay.hovered == old(overlay.hovered)
    {
      if overlay != null {
        overlay.pos := pos;
      }
    }

    /** Moving the host, followed by the move event that the move causes. */
    method Move(to: Point)
      modifies this`pos, overlay
      ensures pos == to
      ensures overlay != null ==> overlay.pos == to
      ensures overlay != null ==> overlay.dragPos == old(overlay.dragPos) && overlay.hovered == old(overlay.hovered)
    {
      pos := to;
      MoveEvent();
    }

    /** `exit_event`, reduced to the request it records; it has no guard, so
        every call is one more request. */
    method ExitEvent()
      modifies this`exitRequests
      ensures exitRequests == old(exitRequests) + 1
    {
      exitRequests := exitRequests + 1;
    }

    /** Creating the overlay once the browser window is embedded: sized like
        the host, carrying the platform's close button, and moved onto the host. */
    method AttachOverlay() returns (o: OverlayWindow)
      modifies this`overlay
      ensures fresh(o) && overlay == o && o.mainWindow == this
      ensures o.size == appSize && o.closeRect == CloseRect(platform)
      ensures o.Wired() && o.State() == Scene(None, NoHover, pos, pos, exitRequests)
      ensures Synced(o.State())
    {
      o := new OverlayWindow(this, appSize);
      overlay := o;
      o.pos := pos;
    }
  }

  /** The translucent always-on-top window that takes all pointer input over
      the embedded browser window. */
  class OverlayWindow {
    const mainWindow: LiveApp
    /** The close button, fixed when the overlay is made. */
    const closeRect: Rect
    const size: Size
    /** `_drag_pos`: the live drag session's anchor, if any. */
    var dragPos: Option<Point>
    /** `hovered_button`. */
    var hovered: Hover
    /** The overlay's top-left corner on the screen. */
    var pos: Point

    /** The host knows this overlay as its own, so the host's move events
        reach it. */
    ghost predicate Wired()
      reads this, mainWindow
    {
      mainWindow.overlay == this
    }

    /** The state the handlers act on, as a value. */
    function State(): Scene
      reads this, mainWindow
    {
      Scene(dragPos, hovered, mainWindow.pos, pos, mainWindow.exitRequests)
    }

    /** An overlay for the given host, with the close button of the host's
        platform, no drag session and nothing hovered. Its position is left
        to the window system until the host moves it. */
    constructor (mainWindow: LiveApp, size: Size)
      ensures this.mainWindow == mainWindow && this.size == size
      ensures closeRect == CloseRect(mainWindow.platform)
      ensures dragPos == None && hovered == NoHover
    {
      this.mainWindow := mainWindow;
      this.size := size;
      dragPos := None;
      closeRect := CloseRect(mainWindow.platform);
      hovered := NoHover;
    }

    /** `mousePressEvent`. */
    method MousePress(button: MouseButton, local: Point, global: Point)
      requires Wired()
      modifies this, mainWindow
      ensures Wired()
      ensures State() == PressStep(closeRect, old(State()), button, local, global)
    {
      if button == LeftButton {
        if Contains(closeRect, local) {
          hovered := NoHover;
          mainWindow.ExitEvent();
        } else {
          dragPos := Some(global.Minus(mainWindow.pos));
        }
      }
    }

    /** `mouseMoveEvent`. */
    method MouseMove(local: Point, global: Point, leftHeld: bool)
      requires Wired()
      modifies this, mainWindow
      ensures Wired()
      ensures State() == MoveStep(closeRect, old(State()), local, global, leftHeld)
    {
      if Contains(closeRect, local) {
        hovered := CloseHover;
      } else if hovered != NoHover {
        hovered := NoHover;
      }
      if dragPos.Some? && leftHeld {
        mainWindow.Move(global.Minus(dragPos.value));
      }
    }

    /** `mouseReleaseEvent`. */
    method MouseRelease()
      modifies this`dragPos
      ensures State() == ReleaseStep(old(State()))
    {
      dragPos := None;
    }
  }

  /** A Bilibili session: a press on the close button requests exit without
      starting a drag; a press at (10, 10) with the host at (100, 100) and a
      move to (20, 25) put the host, and the overlay with it, at (110, 115). */
  method ExampleSession()
  {
    var app := new LiveApp(Bili, "https://live.bilibili.com/1");
    var o := app.AttachOverlay();
    o.MousePress(LeftButton, Point(260, 10), Point(260, 10));
    assert app.exitRequests == 1 && o.dragPos == None;
    app.Move(Point(100, 100));
    o.MousePress(LeftButton, Point(10, 10), Point(10, 10));
    o.MouseMove(Point(20, 25), Point(20, 25), true);
    assert app.pos == Point(110, 115) && o.pos == app.pos;
    o.MouseRelease();
    o.MouseMove(Point(50, 50), Point(80, 80), true);
    assert app.pos == Point(110, 115);
  }
}
