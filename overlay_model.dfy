/** The overlay's input state machine as values: what one mouse event does to
    the drag anchor, the hover tag, the host's and the overlay's top-left
    corners and the number of exit requests, and what a run of events does. */
module OverlayModel {
  import opened Wrappers
  import opened Geometry

  /** `hovered_button`: None or "close". */
  datatype Hover = NoHover | CloseHover

  datatype MouseButton = LeftButton | OtherButton

  /** Everything the overlay's handlers read or change. `anchor` is
      `_drag_pos`, the pointer's offset from the host's top-left when a drag
      began; `exits` counts the calls of the host's `exit_event`. */
  datatype Scene = Scene(anchor: Option<Point>, hover: Hover, host: Point, overlay: Point, exits: nat)

  /** A pointer event delivered to the overlay, with the pointer's position in
      overlay-local and in global coordinates. */
  datatype MouseEvent =
    | Press(button: MouseButton, local: Point, global: Point)
    | Move(local: Point, global: Point, leftHeld: bool)
    | Release

  /** The overlay position follows the host position. */
  predicate Synced(s: Scene) {
    s.overlay == s.host
  }

  /** `paintEvent` draws the red highlight over the close button exactly when
      the hover tag is "close". */
  predicate Highlighted(h: Hover) {
    h == CloseHover
  }

  /** `mousePressEvent`. A left press on the close button clears the hover tag
      and requests exit; a left press elsewhere starts a drag session anchored
      at the pointer's offset from the host; any other button does nothing. */
  function PressStep(r: Rect, s: Scene, button: MouseButton, local: Point, global: Point): (t: Scene)
    ensures t.host == s.host && t.overlay == s.overlay
    ensures t.exits == s.exits + (if button == LeftButton && Contains(r, local) then 1 else 0)
    ensures button == LeftButton && Contains(r, local) ==> t.hover == NoHover && t.anchor == s.anchor
    ensures button == LeftButton && !Contains(r, local) ==>
      t.hover == s.hover && t.anchor.Some? && s.host.Plus(t.anchor.value) == global
    ensures button != LeftButton ==> t == s
  {
    if button == LeftButton then
      if Contains(r, local) then s.(hover := NoHover, exits := s.exits + 1)
      else s.(anchor := Some(global.Minus(s.host)))
    else s
  }

  /** `mouseMoveEvent`. The hover tag is set from the pointer's local
      position; while a drag session is live and the left button is held the
      host moves so that the anchor stays under the pointer, and the host's
      move event brings the overlay along. */
  function MoveStep(r: Rect, s: Scene, local: Point, global: Point, leftHeld: bool): (t: Scene)
    ensures Highlighted(t.hover) <==> Contains(r, local)
    ensures t.anchor == s.anchor && t.exits == s.exits
    ensures s.anchor.Some? && leftHeld ==> t.host.Plus(s.anchor.value) == global && Synced(t)
    ensures !(s.anchor.Some? && leftHeld) ==> t.host == s.host && t.overlay == s.overlay
  {
    var hover := if Contains(r, local) then CloseHover else if s.hover != NoHover then NoHover else s.hover;
    if s.anchor.Some? && leftHeld then
      var to := global.Minus(s.anchor.value);
      s.(hover := hover, host := to, overlay := to)
    else
      s.(hover := hover)
  }

  /** `mouseReleaseEvent`: the drag session ends whatever button was released. */
  function ReleaseStep(s: Scene): (t: Scene)
    ensures t.anchor == None
    ensures t.hover == s.hover && t.host == s.host && t.overlay == s.overlay && t.exits == s.exits
  {
    s.(anchor := None)
  }

  function Step(r: Rect, s: Scene, e: MouseEvent): Scene {
    match e
    case Press(b, l, g) => PressStep(r, s, b, l, g)
    case Move(l, g, held) => MoveStep(r, s, l, g, held)
    case Release => ReleaseStep(s)
  }

  /** The state after a run of events, delivered in order. */
  function Run(r: Rect, s: Scene, es: seq<MouseEvent>): Scene
    decreases |es|
  {
    if es == [] then s else Run(r, Step(r, s, es[0]), es[1..])
  }

  /** Left presses on the close button in a run of events. */
  function ClosePresses(r: Rect, es: seq<MouseEvent>): nat
    decreases |es|
  {
    if es == [] then 0
    else
      var here := if es[0].Press? && es[0].button == LeftButton && Contains(r, es[0].local) then 1 else 0;
      here + ClosePresses(r, es[1..])
  }

  /** Running two runs one after the other is running their concatenation. */
  lemma {:induction false} RunAppend(r: Rect, s: Scene, a: seq<MouseEvent>, b: seq<MouseEvent>)
    ensures Run(r, s, a + b) == Run(r, Run(r, s, a), b)
    decreases |a|
  {
    if a == [] {
      assert a + b == b;
    } else {
      assert (a + b)[0] == a[0] && (a + b)[1..] == a[1..] + b;
      RunAppend(r, Step(r, s, a[0]), a[1..], b);
    }
  }

  /** No drift: once the overlay sits on the host, it still does after any
      run of pointer events. */
  lemma {:induction false} RunKeepsSync(r: Rect, s: Scene, es: seq<MouseEvent>)
    requires Synced(s)
    ensures Synced(Run(r, s, es))
    decreases |es|
  {
    if es != [] {
      RunKeepsSync(r, Step(r, s, es[0]), es[1..]);
    }
  }

  /** Every left press on the close button requests exit once more: the
      close action has no guard against repeated presses. */
  lemma {:induction false} ExitRequestsCountClosePresses(r: Rect, s: Scene, es: seq<MouseEvent>)
    ensures Run(r, s, es).exits == s.exits + ClosePresses(r, es)
    decreases |es|
  {
    if es != [] {
      ExitRequestsCountClosePresses(r, Step(r, s, es[0]), es[1..]);
    }
  }

  /** Moves with the left button held. */
  predicate DragMoves(es: seq<MouseEvent>) {
    forall i :: 0 <= i < |es| ==> es[i].Move? && es[i].leftHeld
  }

  /** During a drag the anchor never changes and the host always sits at the
      latest global pointer position minus the anchor. */
  lemma {:induction false} DragKeepsAnchorUnderPointer(r: Rect, s: Scene, es: seq<MouseEvent>)
    requires s.anchor.Some? && DragMoves(es) && es != []
    ensures Run(r, s, es).anchor == s.anchor
    ensures Run(r, s, es).host.Plus(s.anchor.value) == es[|es| - 1].global
    decreases |es|
  {
    var t := Step(r, s, es[0]);
    if |es| > 1 {
      assert DragMoves(es[1..]) by {
        forall i | 0 <= i < |es[1..]| ensures es[1..][i].Move? && es[1..][i].leftHeld {
          assert es[1..][i] == es[i + 1];
        }
      }
      DragKeepsAnchorUnderPointer(r, t, es[1..]);
    }
  }

  /** Pure delta translation: a left press at global P0 outside the close
      button, with the host at H0, followed by moves with the left button
      held ending at P1, leaves the host at H0 + (P1 - P0). */
  lemma PressThenDrag(r: Rect, s: Scene, local0: Point, p0: Point, moves: seq<MouseEvent>)
    requires !Contains(r, local0) && DragMoves(moves) && moves != []
    ensures Run(r, s, [Press(LeftButton, local0, p0)] + moves).host
      == s.host.Plus(moves[|moves| - 1].global.Minus(p0))
  {
    var t := PressStep(r, s, LeftButton, local0, p0);
    RunAppend(r, s, [Press(LeftButton, local0, p0)], moves);
    assert Run(r, s, [Press(LeftButton, local0, p0)]) == t;
    DragKeepsAnchorUnderPointer(r, t, moves);
  }

  /** Runs with no press in them. */
  predicate NoPresses(es: seq<MouseEvent>) {
    forall i :: 0 <= i < |es| ==> !es[i].Press?
  }

  /** Without a drag anchor and without a new press, no run of moves and
      releases moves the host or the overlay. */
  lemma {:induction false} NoAnchorNoMove(r: Rect, s: Scene, es: seq<MouseEvent>)
    requires s.anchor.None? && NoPresses(es)
    ensures Run(r, s, es).host == s.host && Run(r, s, es).overlay == s.overlay
    ensures Run(r, s, es).anchor.None?
    decreases |es|
  {
    if es != [] {
      assert NoPresses(es[1..]) by {
        forall i | 0 <= i < |es[1..]| ensures !es[1..][i].Press? {
          assert es[1..][i] == es[i + 1];
        }
      }
      NoAnchorNoMove(r, Step(r, s, es[0]), es[1..]);
    }
  }

  /** A release leaves nothing behind: after it, moves without a new press
      never move the host, whatever anchor the earlier drag had. */
  lemma ReleaseEndsDrag(r: Rect, s: Scene, es: seq<MouseEvent>)
    requires NoPresses(es)
    ensures Run(r, s, [Release] + es).host == s.host
  {
    RunAppend(r, s, [Release], es);
    assert Run(r, s, [Release]) == ReleaseStep(s);
    NoAnchorNoMove(r, ReleaseStep(s), es);
  }

  /** After any history, if the last event is a move, the highlight is drawn
      exactly when that move's local position is on the close button. */
  lemma HighlightFollowsLastMove(r: Rect, s: Scene, es: seq<MouseEvent>, local: Point, global: Point, held: bool)
    ensures Highlighted(Run(r, s, es + [Move(local, global, held)]).hover) <==> Contains(r, local)
  {
    RunAppend(r, s, es, [Move(local, global, held)]);
    var u := Run(r, s, es);
    assert Run(r, u, [Move(local, global, held)]) == MoveStep(r, u, local, global, held);
  }

  /** Three quick left presses on the close button request exit three times. */
  lemma RepeatedCloseIsNotIdempotent(r: Rect, s: Scene, local: Point, global: Point)
    requires Contains(r, local)
    ensures Run(r, s, [Press(LeftButton, local, global), Press(LeftButton, local, global),
                      Press(LeftButton, local, global)]).exits == s.exits + 3
  {
    var p := Press(LeftButton, local, global);
    ExitRequestsCountClosePresses(r, s, [p, p, p]);
    assert [p, p, p][1..] == [p, p] && [p, p][1..] == [p] && [p][1..] == [];
    assert ClosePresses(r, [p]) == 1;
    assert ClosePresses(r, [p, p]) == 2;
  }
}
