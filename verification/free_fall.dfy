/*
  The one-dimensional free-fall simulation of lab 1 (lab1/lab1.py): a
  `Simulation` object that advances a falling ball by explicit Euler steps
  and keeps two parallel traces, the times (in milliseconds) and the heights
  it has passed through, plus the screen mapping that flips the y axis.
*/
module FreeFall {

  /** Height and velocity after n steps of the update the simulation uses:
      the height moves by the old velocity (no dt factor), then the velocity
      moves by dv. */
  function Euler(y0: real, vy0: real, dv: real, n: nat): (r: (real, real))
    ensures r.1 == vy0 + n as real * dv
  {
    if n == 0 then (y0, vy0)
    else
      var (y, vy) := Euler(y0, vy0, dv, n - 1);
      (y + vy, vy + dv)
  }

  /** The closed form of the Euler recurrence: the velocity grows linearly
      and the height quadratically, n(n-1)/2 velocity increments behind. */
  lemma {:induction false} EulerClosedForm(y0: real, vy0: real, dv: real, n: nat)
    ensures Euler(y0, vy0, dv, n).1 == vy0 + n as real * dv
    ensures 2.0 * Euler(y0, vy0, dv, n).0
         == 2.0 * y0 + 2.0 * n as real * vy0 + n as real * (n as real - 1.0) * dv
  {
    if n > 0 {
      EulerClosedForm(y0, vy0, dv, n - 1);
      var m := (n - 1) as real;
      assert n as real == m + 1.0;
      assert (m + 1.0) * m * dv == m * (m - 1.0) * dv + 2.0 * m * dv;
    }
  }

  /** Running m steps and then n more is running m + n steps. */
  lemma {:induction false} EulerCompose(y0: real, vy0: real, dv: real, m: nat, n: nat)
    ensures Euler(Euler(y0, vy0, dv, m).0, Euler(y0, vy0, dv, m).1, dv, n) == Euler(y0, vy0, dv, m + n)
  {
    if n > 0 {
      EulerCompose(y0, vy0, dv, m, n - 1);
    }
  }

  /** Flip a height into screen coordinates, where y grows downwards. */
  function SimToScreenY(winHeight: real, y: real): (r: real)
    ensures r + y == winHeight
  {
    winHeight - y
  }

  /** Flipping twice gives the height back. */
  lemma SimToScreenYInvolution(winHeight: real, y: real)
    ensures SimToScreenY(winHeight, SimToScreenY(winHeight, y)) == y
  {
  }

  /** Flipping reverses the order of heights: higher up is nearer the top. */
  lemma SimToScreenYReverses(winHeight: real, y1: real, y2: real)
    ensures y1 < y2 <==> SimToScreenY(winHeight, y1) > SimToScreenY(winHeight, y2)
  {
  }

  /** The ball is below the window exactly when its height is negative. */
  lemma SimToScreenYBelowWindow(winHeight: real, y: real)
    ensures SimToScreenY(winHeight, y) > winHeight <==> y < 0.0
  {
  }

  class Simulation {
    var y: real
    var vy: real
    var mass: real
    const g: real
    const dt: real
    var curTime: real
    var paused: bool
    /** Empty until `Setup` creates them. */
    var times: seq<real>
    var positions: seq<real>

    /** Where the current run started, and how many steps it has taken. */
    ghost var startY: real
    ghost var startVy: real
    ghost var startTime: real
    ghost var steps: nat

    /** The velocity change of one step; a run with zero mass takes none. */
    function DeltaV(): real
      reads this
    {
      if mass == 0.0 then 0.0 else g * dt / mass
    }

    predicate IsSetUp()
      reads this
    {
      |positions| > 0
    }

    /** The traces have equal length; once set up, they hold the Euler
        trajectory of the run step by step, the last entries are the current
        height and time, and the time is the start time plus one dt a step. */
    ghost predicate Valid()
      reads this
    {
      && |times| == |positions|
      && (IsSetUp() ==>
            && |positions| == steps + 1
            && (steps > 0 ==> mass != 0.0)
            && (y, vy) == Euler(startY, startVy, DeltaV(), steps)
            && curTime == startTime + steps as real * dt
            && (forall k :: 0 <= k < |positions| ==>
                  positions[k] == Euler(startY, startVy, DeltaV(), k).0)
            && (forall k :: 0 <= k < |times| ==>
                  times[k] == (startTime + k as real * dt) * 1000.0))
    }

    /** A new simulation: at rest at height 0 with mass 0, gravity -9.8,
        a 33 ms step, and paused. */
    constructor ()
      ensures Valid() && !IsSetUp()
      ensures y == 0.0 && vy == 0.0 && mass == 0.0 && curTime == 0.0
      ensures g == -9.8 && dt == 0.033 && paused
      ensures times == [] && positions == []
    {
      y, vy, mass := 0.0, 0.0, 0.0;
      g, dt := -9.8, 0.033;
      curTime := 0.0;
      paused := true;
      times, positions := [], [];
    }

    /** Start a run: set height, velocity and mass and restart both traces
        at the current time and height. */
    method Setup(y0: real, vy0: real, m: real)
      requires Valid()
      modifies this
      ensures Valid() && IsSetUp()
      ensures y == y0 && vy == vy0 && mass == m
      ensures times == [old(curTime) * 1000.0] && positions == [y0]
      ensures curTime == old(curTime) && paused == old(paused)
    {
      y, vy, mass := y0, vy0, m;
      times := [curTime * 1000.0];
      positions := [y];
      startY, startVy, startTime, steps := y0, vy0, curTime, 0;
    }

    /** One explicit Euler step: move by the old velocity, accelerate by
        g dt / mass, advance the clock by dt and extend both traces. */
    method Step()
      requires Valid() && IsSetUp() && mass != 0.0
      modifies this
      ensures Valid() && IsSetUp()
      ensures mass == old(mass) && paused == old(paused)
      ensures y == old(y) + old(vy) && vy == old(vy) + g * dt / mass
      ensures curTime == old(curTime) + dt
      ensures times == old(times) + [curTime * 1000.0]
      ensures positions == old(positions) + [y]
    {
      y := y + vy;
      vy := vy + g * dt / mass;
      curTime := curTime + dt;
      times := times + [curTime * 1000.0];
      positions := positions + [y];
      steps := steps + 1;
      assert curTime == startTime + steps as real * dt;
    }

    method Pause()
      requires Valid()
      modifies this`paused
      ensures Valid() && paused
    {
      paused := true;
    }

    method Resume()
      requires Valid()
      modifies this`paused
      ensures Valid() && !paused
    {
      paused := false;
    }
  }

  /** The trace a run records: from height y0 and velocity vy0 with mass m,
      its k-th height is y0 + k vy0 + k(k-1)/2 g dt / m. */
  lemma TraceClosedForm(s: Simulation, k: nat)
    requires s.Valid() && s.IsSetUp() && s.mass != 0.0 && k < |s.positions|
    ensures 2.0 * s.positions[k] == 2.0 * s.startY + 2.0 * k as real * s.startVy
                                    + k as real * (k as real - 1.0) * (s.g * s.dt / s.mass)
  {
    EulerClosedForm(s.startY, s.startVy, s.DeltaV(), k);
  }
}
