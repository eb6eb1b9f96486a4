/** Drag-to-rotate: pointer-down records an anchor, a mouse move while
    dragging sets the target yaw from the horizontal distance to the anchor,
    mouse-up ends the drag. */
module Drag {
  import Spring

  /** Radians of yaw per pixel of horizontal pointer travel. */
  const Sensitivity: real := 0.01

  /** The `dragStart` record: pointer x and the target yaw when the drag began. */
  datatype Anchor = Anchor(x: real, rotY: real)

  /** The drag flag, the anchor and the target yaw the settled card approaches. */
  datatype DragState = DragState(dragging: bool, anchor: Anchor, targetRotationY: real)

  const InitialDrag: DragState := DragState(false, Anchor(0.0, Spring.Pi), Spring.Pi)

  datatype PointerEvent = Down(clientX: real) | Move(clientX: real) | Up

  /** The target yaw a drag anchored at `a` asks for when the pointer is at `x`. */
  function DraggedTarget(a: Anchor, x: real): real {
    a.rotY + (x - a.x) * Sensitivity
  }

  /** The three handlers: `handlePointerDown`, `handleMouseMove`, `handleMouseUp`. */
  function Handle(d: DragState, e: PointerEvent): DragState {
    match e
    case Down(x) => DragState(true, Anchor(x, d.targetRotationY), d.targetRotationY)
    case Move(x) => if d.dragging then d.(targetRotationY := DraggedTarget(d.anchor, x)) else d
    case Up => d.(dragging := false)
  }

  function HandleAll(d: DragState, es: seq<PointerEvent>): DragState
    decreases |es|
  {
    if es == [] then d else HandleAll(Handle(d, es[0]), es[1..])
  }

  /** A sequence of mouse moves at the given x positions. */
  function Moves(xs: seq<real>): (es: seq<PointerEvent>)
    ensures |es| == |xs|
    ensures forall i :: 0 <= i < |xs| ==> es[i] == Move(xs[i])
  {
    seq(|xs|, i requires 0 <= i < |xs| => Move(xs[i]))
  }

  /** Pointer-down starts a drag anchored at the pointer and at the current
      target yaw, without moving the target. */
  lemma DownAnchors(d: DragState, x: real)
    ensures Handle(d, Down(x)).dragging
    ensures Handle(d, Down(x)).anchor == Anchor(x, d.targetRotationY)
    ensures Handle(d, Down(x)).targetRotationY == d.targetRotationY
    ensures DraggedTarget(Handle(d, Down(x)).anchor, x) == d.targetRotationY
  {
  }

  /** A move while dragging sets the target from the anchor and the pointer
      only; a move while not dragging changes nothing. */
  lemma MoveSetsTarget(d: DragState, x: real)
    ensures d.dragging ==> Handle(d, Move(x)) == d.(targetRotationY := d.anchor.rotY + (x - d.anchor.x) * 0.01)
    ensures !d.dragging ==> Handle(d, Move(x)) == d
  {
  }

  /** Mouse-up always ends the drag, keeps the anchor and the target yaw, and
      a second mouse-up changes nothing. */
  lemma UpReleases(d: DragState)
    ensures !Handle(d, Up).dragging
    ensures Handle(d, Up).anchor == d.anchor
    ensures Handle(d, Up).targetRotationY == d.targetRotationY
    ensures Handle(Handle(d, Up), Up) == Handle(d, Up)
  {
  }

  /** Moves while dragging are last-writer-wins: after any non-empty run of
      moves the target is the one asked for by the last pointer position, and
      the flag and the anchor are untouched. */
  lemma {:induction false} MovesEndAtLast(d: DragState, xs: seq<real>)
    requires d.dragging
    requires xs != []
    ensures HandleAll(d, Moves(xs)) == d.(targetRotationY := DraggedTarget(d.anchor, xs[|xs| - 1]))
    decreases |xs|
  {
    var d1 := Handle(d, Move(xs[0]));
    assert Moves(xs)[1..] == Moves(xs[1..]);
    if |xs| > 1 {
      MovesEndAtLast(d1, xs[1..]);
    } else {
      assert Moves(xs)[1..] == [];
    }
  }

  /** Sum of a sequence of pointer x-deltas. */
  function Sum(ds: seq<real>): real
    decreases |ds|
  {
    if ds == [] then 0.0 else ds[0] + Sum(ds[1..])
  }

  /** Pointer positions reached from `x0` by the successive deltas `ds`. */
  function Path(x0: real, ds: seq<real>): (xs: seq<real>)
    ensures |xs| == |ds|
    decreases |ds|
  {
    if ds == [] then [] else [x0 + ds[0]] + Path(x0 + ds[0], ds[1..])
  }

  lemma {:induction false} PathEnd(x0: real, ds: seq<real>)
    requires ds != []
    ensures Path(x0, ds)[|ds| - 1] == x0 + Sum(ds)
    decreases |ds|
  {
    if |ds| > 1 {
      PathEnd(x0 + ds[0], ds[1..]);
    }
  }

  /** Drag continuity: a press at x0 followed by moves by x-deltas d1..dn
      (possibly none) leaves the target at the yaw of the press plus sum(di) times the
      sensitivity, and releasing afterwards does not alter it. */
  lemma DragContinuity(d: DragState, x0: real, ds: seq<real>)
    ensures HandleAll(Handle(d, Down(x0)), Moves(Path(x0, ds))).targetRotationY
         == d.targetRotationY + Sum(ds) * Sensitivity
    ensures Handle(HandleAll(Handle(d, Down(x0)), Moves(Path(x0, ds))), Up).targetRotationY
         == d.targetRotationY + Sum(ds) * Sensitivity
  {
    if ds == [] {
      assert Moves(Path(x0, ds)) == [];
    } else {
      MovesEndAtLast(Handle(d, Down(x0)), Path(x0, ds));
      PathEnd(x0, ds);
    }
  }

  /** After a release, moves change nothing until the next press. */
  lemma {:induction false} IdleIgnoresMoves(d: DragState, xs: seq<real>)
    requires !d.dragging
    ensures HandleAll(d, Moves(xs)) == d
    decreases |xs|
  {
    if xs != [] {
      assert Moves(xs)[1..] == Moves(xs[1..]);
      IdleIgnoresMoves(d, xs[1..]);
    }
  }
}
