/** The entry animation of the card: two independent damped springs (vertical
    offset and yaw), advanced by semi-implicit Euler once per frame, and the
    one-way Entering -> Settled phase switch that snaps them to their targets. */
module Spring {

  /** `Math.PI`, the target yaw and the initial drag target. */
  const Pi: real := 3.141592653589793

  const TargetY: real := 30.0
  const TargetRot: real := Pi
  const Mass: real := 2.5
  const Stiffness: real := 90.0
  const Damping: real := 22.0
  /** Every error term must fall strictly below this for the entry to settle. */
  const Epsilon: real := 0.01

  /** The `spring` state record: vertical offset, its velocity, yaw, its velocity. */
  datatype SpringState = SpringState(y: real, vy: real, rot: real, vrot: real)

  /** One channel of the spring: a position and its velocity. */
  datatype Channel = Channel(pos: real, vel: real)

  const Initial: SpringState := SpringState(-10.0, 0.0, 0.0, 0.0)

  /** Where the entry ends: both targets exactly, both velocities zero. */
  const Pinned: SpringState := SpringState(TargetY, 0.0, TargetRot, 0.0)

  function Abs(x: real): real { if x < 0.0 then -x else x }

  function YChannel(s: SpringState): Channel { Channel(s.y, s.vy) }
  function RotChannel(s: SpringState): Channel { Channel(s.rot, s.vrot) }

  /** Acceleration of the damped oscillator: restoring force minus damping, over the mass. */
  function Accel(c: Channel, target: real): real {
    (-Stiffness * (c.pos - target) - Damping * c.vel) / Mass
  }

  /** Semi-implicit Euler: the velocity is updated first and the position moves
      with the NEW velocity. */
  function ChannelStep(c: Channel, target: real, delta: real): Channel {
    var v := c.vel + Accel(c, target) * delta;
    Channel(c.pos + v * delta, v)
  }

  /** One frame of the entry spring on both channels. */
  function Step(s: SpringState, delta: real): SpringState {
    var y := ChannelStep(YChannel(s), TargetY, delta);
    var r := ChannelStep(RotChannel(s), TargetRot, delta);
    SpringState(y.pos, y.vel, r.pos, r.vel)
  }

  /** The settle test: all four error terms strictly below epsilon at once. */
  predicate Converged(s: SpringState) {
    Abs(s.y - TargetY) < Epsilon && Abs(s.rot - TargetRot) < Epsilon &&
    Abs(s.vy) < Epsilon && Abs(s.vrot) < Epsilon
  }

  /** The entry phase machine: the spring record and the `entryDone` flag. */
  datatype Entry = Entry(spring: SpringState, done: bool)

  const InitialEntry: Entry := Entry(Initial, false)

  /** One frame of the phase machine.  A settled entry is left alone; otherwise
      the spring is stepped and, if the stepped state passes the settle test,
      replaced by the pinned state with the phase flipped. */
  function EntryFrame(e: Entry, delta: real): (r: Entry)
    ensures e.done ==> r == e
    ensures !e.done ==> (r.done <==> Converged(Step(e.spring, delta)))
    ensures !e.done && r.done ==> r.spring == Pinned
    ensures !r.done ==> r.spring == Step(e.spring, delta)
  {
    if e.done then e
    else
      var next := Step(e.spring, delta);
      if Converged(next) then Entry(Pinned, true) else Entry(next, false)
  }

  /** Repeated frames with the given elapsed times. */
  function EntryFrames(e: Entry, deltas: seq<real>): Entry
    decreases |deltas|
  {
    if deltas == [] then e else EntryFrames(EntryFrame(e, deltas[0]), deltas[1..])
  }

  /** The spring on its own, stepped once per elapsed time, with no settle test. */
  function StepAll(s: SpringState, deltas: seq<real>): SpringState
    decreases |deltas|
  {
    if deltas == [] then s else StepAll(Step(s, deltas[0]), deltas[1..])
  }

  /** True when no intermediate state of the free-running spring passes the settle test. */
  predicate NeverConverges(s: SpringState, deltas: seq<real>)
    decreases |deltas|
  {
    deltas == [] ||
    (var next := Step(s, deltas[0]); !Converged(next) && NeverConverges(next, deltas[1..]))
  }

  // ---------------------------------------------------------------- the step

  /** Semi-implicit against explicit Euler: the new position is the old one
      plus the old velocity times delta plus the acceleration times delta
      squared (explicit Euler would stop at the old velocity term). */
  lemma SemiImplicitPosition(c: Channel, target: real, delta: real)
    ensures ChannelStep(c, target, delta).pos
         == c.pos + c.vel * delta + Accel(c, target) * delta * delta
    ensures ChannelStep(c, target, delta).vel == c.vel + Accel(c, target) * delta
  {
  }

  /** The step as the linear map on (error, velocity) it is: with e the
      position error and h the elapsed time,
        v' = -(k h / m) e + (1 - c h / m) v
        e' = (1 - k h^2 / m) e + h (1 - c h / m) v. */
  lemma StepMatrix(c: Channel, target: real, h: real)
    ensures var r := ChannelStep(c, target, h);
            var e := c.pos - target;
            r.vel == -(Stiffness * h / Mass) * e + (1.0 - Damping * h / Mass) * c.vel &&
            r.pos - target == (1.0 - Stiffness * h * h / Mass) * e + h * (1.0 - Damping * h / Mass) * c.vel
  {
  }

  /** Only the error to the target matters: moving position and target
      together moves the stepped position by the same amount and leaves the
      stepped velocity alone. */
  lemma StepTranslates(c: Channel, target: real, shift: real, delta: real)
    ensures ChannelStep(Channel(c.pos + shift, c.vel), target + shift, delta)
         == Channel(ChannelStep(c, target, delta).pos + shift, ChannelStep(c, target, delta).vel)
  {
  }

  /** The step is linear in the error: scaling the error and the velocity by
      k scales the stepped error and velocity by k. */
  lemma StepScales(e: real, v: real, k: real, target: real, delta: real)
    ensures var r := ChannelStep(Channel(target + e, v), target, delta);
            var rk := ChannelStep(Channel(target + k * e, k * v), target, delta);
            rk.pos - target == k * (r.pos - target) && rk.vel == k * r.vel
  {
    StepMatrix(Channel(target + e, v), target, delta);
    StepMatrix(Channel(target + k * e, k * v), target, delta);
  }

  /** The target at rest is an equilibrium: stepping it changes nothing, whatever the delta. */
  lemma RestIsFixed(target: real, delta: real)
    ensures ChannelStep(Channel(target, 0.0), target, delta) == Channel(target, 0.0)
  {
  }

  /** The two channels do not read each other: each half of the stepped state
      is the one-channel step of the same half of the old state. */
  lemma ChannelsIndependent(s: SpringState, t: SpringState, delta: real)
    ensures YChannel(Step(s, delta)) == ChannelStep(YChannel(s), TargetY, delta)
    ensures RotChannel(Step(s, delta)) == ChannelStep(RotChannel(s), TargetRot, delta)
    ensures YChannel(s) == YChannel(t) ==> YChannel(Step(s, delta)) == YChannel(Step(t, delta))
    ensures RotChannel(s) == RotChannel(t) ==> RotChannel(Step(s, delta)) == RotChannel(Step(t, delta))
  {
  }

  // ----------------------------------------------------- the phase machine

  /** The pinned state passes the settle test and is a rest point of the spring. */
  lemma PinnedAtRest(delta: real)
    ensures Converged(Pinned)
    ensures Step(Pinned, delta) == Pinned
  {
    RestIsFixed(TargetY, delta);
    RestIsFixed(TargetRot, delta);
  }

  /** The snap moves each field by less than epsilon: a settled state differs
      from the pinned one only by what the settle test allowed. */
  lemma SnapIsSmall(s: SpringState)
    requires Converged(s)
    ensures Abs(Pinned.y - s.y) < Epsilon && Abs(Pinned.rot - s.rot) < Epsilon
    ensures Abs(Pinned.vy - s.vy) < Epsilon && Abs(Pinned.vrot - s.vrot) < Epsilon
  {
  }

  /** The phase is one-way: once done, no sequence of frames changes the
      entry state, so the spring is never stepped again and the flag never clears. */
  lemma {:induction false} SettledIsFinal(e: Entry, deltas: seq<real>)
    requires e.done
    ensures EntryFrames(e, deltas) == e
    decreases |deltas|
  {
    if deltas != [] {
      SettledIsFinal(EntryFrame(e, deltas[0]), deltas[1..]);
    }
  }

  /** Whatever the frames, a done entry holds exactly the pinned state, when
      started from the initial (not done) entry or any entry with that property. */
  lemma {:induction false} DoneMeansPinned(e: Entry, deltas: seq<real>)
    requires e.done ==> e.spring == Pinned
    ensures EntryFrames(e, deltas).done ==> EntryFrames(e, deltas).spring == Pinned
    decreases |deltas|
  {
    if deltas != [] {
      DoneMeansPinned(EntryFrame(e, deltas[0]), deltas[1..]);
    }
  }

  /** While entering, the phase machine is exactly the free-running spring:
      the entry is still not done after the frames if and only if no
      intermediate stepped state passed the settle test, and then its spring
      is the spring stepped once per frame. */
  lemma {:induction false} EnteringFollowsSpring(s: SpringState, deltas: seq<real>)
    ensures !EntryFrames(Entry(s, false), deltas).done <==> NeverConverges(s, deltas)
    ensures NeverConverges(s, deltas) ==>
              EntryFrames(Entry(s, false), deltas).spring == StepAll(s, deltas)
    decreases |deltas|
  {
    if deltas != [] {
      var next := Step(s, deltas[0]);
      if Converged(next) {
        SettledIsFinal(Entry(Pinned, true), deltas[1..]);
      } else {
        EnteringFollowsSpring(next, deltas[1..]);
      }
    }
  }

  /** The flip happens at most once: a run of frames settles at the first
      frame whose stepped state passes the test and stays pinned thereafter. */
  lemma {:induction false} FlipsOnce(s: SpringState, pre: seq<real>, d: real, post: seq<real>)
    requires NeverConverges(s, pre)
    requires Converged(Step(StepAll(s, pre), d))
    ensures EntryFrames(Entry(s, false), pre + [d] + post) == Entry(Pinned, true)
    decreases |pre|
  {
    if pre == [] {
      assert pre + [d] + post == [d] + post;
      assert ([d] + post)[1..] == post;
      SettledIsFinal(Entry(Pinned, true), post);
    } else {
      assert (pre + [d] + post)[1..] == pre[1..] + [d] + post;
      FlipsOnce(Step(s, pre[0]), pre[1..], d, post);
    }
  }
}
