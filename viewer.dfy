/** The card component as a whole: the entry phase machine, the drag
    controller and the rendered yaw, driven by frames and pointer events. */
module Viewer {
  import opened Spring
  import opened Drag
  import Smoothing

  /** Everything the component keeps between frames: the entry spring and
      phase, the drag state, and the rendered yaw of the card's root group. */
  datatype ViewerState = ViewerState(entry: Entry, drag: DragState, yaw: real)

  datatype Input = Frame(delta: real) | Pointer(event: PointerEvent)

  /** The state on mount; the rendered yaw starts as the spring's rotation. */
  const Start: ViewerState := ViewerState(InitialEntry, InitialDrag, Initial.rot)

  /** One input.  A frame runs the entry while entering, and the rendered yaw
      then follows the spring's rotation; once settled it runs only the
      smoothing toward the drag target.  Pointer events touch only the drag
      state, in either phase. */
  function Next(v: ViewerState, input: Input): ViewerState {
    match input
    case Frame(delta) =>
      if v.entry.done then v.(yaw := Smoothing.Approach(v.yaw, v.drag.targetRotationY))
      else
        var e := EntryFrame(v.entry, delta);
        v.(entry := e, yaw := e.spring.rot)
    case Pointer(event) => v.(drag := Handle(v.drag, event))
  }

  function Run(v: ViewerState, inputs: seq<Input>): ViewerState
    decreases |inputs|
  {
    if inputs == [] then v else Run(Next(v, inputs[0]), inputs[1..])
  }

  /** What every reachable state satisfies: a settled entry is pinned, and
      while entering the rendered yaw is the spring's rotation. */
  predicate Consistent(v: ViewerState) {
    (v.entry.done ==> v.entry.spring == Pinned) &&
    (!v.entry.done ==> v.yaw == v.entry.spring.rot)
  }

  /** A settled frame for each elapsed time, with no pointer events. */
  function Frames(deltas: seq<real>): (inputs: seq<Input>)
    ensures |inputs| == |deltas|
    ensures forall i :: 0 <= i < |deltas| ==> inputs[i] == Frame(deltas[i])
  {
    seq(|deltas|, i requires 0 <= i < |deltas| => Frame(deltas[i]))
  }

  /** Every input keeps the state consistent. */
  lemma NextConsistent(v: ViewerState, input: Input)
    requires Consistent(v)
    ensures Consistent(Next(v, input))
  {
  }

  /** The state on mount is consistent, and so is every state reached from it. */
  lemma {:induction false} RunConsistent(v: ViewerState, inputs: seq<Input>)
    requires Consistent(v)
    ensures Consistent(Run(v, inputs))
    decreases |inputs|
  {
    if inputs != [] {
      NextConsistent(v, inputs[0]);
      RunConsistent(Next(v, inputs[0]), inputs[1..]);
    }
  }

  /** The phase is one-way under any mix of frames and pointer events: once
      settled, the entry (spring and flag) never changes again. */
  lemma {:induction false} SettledStaysSettled(v: ViewerState, inputs: seq<Input>)
    requires v.entry.done
    ensures Run(v, inputs).entry == v.entry
    decreases |inputs|
  {
    if inputs != [] {
      SettledStaysSettled(Next(v, inputs[0]), inputs[1..]);
    }
  }

  /** Pointer events never touch the entry or the rendered yaw; frames never
      touch the drag state. */
  lemma InputsSeparate(v: ViewerState, input: Input)
    ensures input.Pointer? ==> Next(v, input).entry == v.entry && Next(v, input).yaw == v.yaw
    ensures input.Frame? ==> Next(v, input).drag == v.drag
  {
  }

  /** Pointer-down is not gated on the phase: pressing while the entry runs
      still arms a drag anchored at the current target yaw. */
  lemma PressDuringEntryArmsDrag(v: ViewerState, x: real)
    requires !v.entry.done
    ensures Next(v, Pointer(Down(x))).drag.dragging
    ensures Next(v, Pointer(Down(x))).drag.anchor == Anchor(x, v.drag.targetRotationY)
  {
  }

  /** The frame that settles the entry leaves the card exactly at the target
      height and yaw. */
  lemma SettlingFrame(v: ViewerState, delta: real)
    requires !v.entry.done
    requires Converged(Step(v.entry.spring, delta))
    ensures Next(v, Frame(delta)).entry == Entry(Pinned, true)
    ensures Next(v, Frame(delta)).yaw == TargetRot
  {
  }

  /** Once settled, n frames with no pointer events move the yaw exactly as n
      smoothing steps toward the fixed drag target. */
  lemma {:induction false} SettledFramesSmooth(v: ViewerState, deltas: seq<real>)
    requires v.entry.done
    ensures Run(v, Frames(deltas)).yaw == Smoothing.ApproachN(v.yaw, v.drag.targetRotationY, |deltas|)
    ensures Run(v, Frames(deltas)).drag == v.drag
    decreases |deltas|
  {
    if deltas != [] {
      var next := Next(v, Frame(deltas[0]));
      assert Frames(deltas)[1..] == Frames(deltas[1..]);
      SettledFramesSmooth(next, deltas[1..]);
      Smoothing.ApproachNShift(v.yaw, v.drag.targetRotationY, |deltas| - 1);
    }
  }

  /** The component object: React state, refs and the root group's yaw as
      fields, updated synchronously by each handler. */
  class Model3D {
    var spring: SpringState
    var entryDone: bool
    var targetRotationY: real
    var dragStart: Anchor
    var dragging: bool
    /** `group.current.rotation.y`. */
    var yaw: real

    function State(): ViewerState
      reads this
    {
      ViewerState(Entry(spring, entryDone), DragState(dragging, dragStart, targetRotationY), yaw)
    }

    constructor ()
      ensures State() == Start
      ensures Consistent(State())
    {
      spring := Initial;
      entryDone := false;
      targetRotationY := Pi;
      dragStart := Anchor(0.0, Pi);
      dragging := false;
      yaw := Initial.rot;
    }

    /** The per-frame callback. */
    method Frame(delta: real)
      modifies this
      ensures State() == Next(old(State()), Input.Frame(delta))
      ensures old(Consistent(State())) ==> Consistent(State())
    {
      if !entryDone {
        var next := Step(spring, delta);
        spring := next;
        if Abs(next.y - TargetY) < 0.01 && Abs(next.rot - TargetRot) < 0.01 &&
           Abs(next.vy) < 0.01 && Abs(next.vrot) < 0.01 {
          spring := SpringState(TargetY, 0.0, TargetRot, 0.0);
          entryDone := true;
        }
        yaw := spring.rot;
      } else {
        yaw := yaw + (targetRotationY - yaw) * 0.15;
      }
    }

    method PointerDown(clientX: real)
      modifies this
      ensures State() == Next(old(State()), Pointer(Down(clientX)))
    {
      dragging := true;
      dragStart := Anchor(clientX, targetRotationY);
    }

    method MouseMove(clientX: real)
      modifies this
      ensures State() == Next(old(State()), Pointer(Move(clientX)))
    {
      if !dragging {
        return;
      }
      var dx := clientX - dragStart.x;
      targetRotationY := dragStart.rotY + dx * 0.01;
    }

    method MouseUp()
      modifies this
      ensures State() == Next(old(State()), Pointer(Up))
    {
      dragging := false;
    }
  }
}
