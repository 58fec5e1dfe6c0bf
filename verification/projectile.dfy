/*
  The two-dimensional projectile with linear drag of lab 2
  (lab2/2d-projectile-simulation.py): the right-hand side handed to the ODE
  solver, the mapping to screen coordinates, and the `Simulation` object's
  bookkeeping around the solver. The solver itself is opaque: each step is
  given whether the solver still reports success and the state it returns.
*/
module Projectile {

  datatype PState = PState(x: real, y: real, vx: real, vy: real)

  /** `Simulation.f`: the position moves with the velocity; the velocity
      decays by the drag coefficient over the mass, and gravity pulls y down. */
  function Derivative(mass: real, s: PState, gam: real, grav: real): (d: PState)
    requires mass != 0.0
    ensures d.x == s.vx && d.y == s.vy
    ensures mass * d.vx == -gam * s.vx
    ensures mass * (d.vy + grav) == -gam * s.vy
  {
    PState(s.vx, s.vy, (-gam / mass) * s.vx, (-gam / mass) * s.vy - grav)
  }

  /** Without drag the horizontal velocity is constant and the vertical one
      falls at the rate of gravity. */
  lemma DerivativeWithoutDrag(mass: real, s: PState, grav: real)
    requires mass != 0.0
    ensures Derivative(mass, s, 0.0, grav).vx == 0.0
    ensures Derivative(mass, s, 0.0, grav).vy == -grav
  {
  }

  /** With positive mass and non-negative drag, the drag never speeds the
      horizontal motion up. */
  lemma DragOpposesMotion(mass: real, s: PState, gam: real, grav: real)
    requires mass > 0.0 && gam >= 0.0
    ensures Derivative(mass, s, gam, grav).vx * s.vx <= 0.0
  {
    var k := gam / mass;
    assert k >= 0.0;
    assert Derivative(mass, s, gam, grav).vx * s.vx == -k * (s.vx * s.vx);
  }

  /** Half the rate of change of the squared speed: the drag term, always
      opposite to the motion, plus the work of gravity. */
  lemma SpeedChangeRate(mass: real, s: PState, gam: real, grav: real)
    requires mass != 0.0
    ensures var d := Derivative(mass, s, gam, grav);
            mass * (s.vx * d.vx + s.vy * d.vy)
            == -gam * (s.vx * s.vx + s.vy * s.vy) - mass * grav * s.vy
  {
    var d := Derivative(mass, s, gam, grav);
    assert mass * (s.vx * d.vx) == s.vx * (mass * d.vx);
    assert mass * (s.vy * d.vy) == s.vy * (mass * (d.vy + grav)) - mass * grav * s.vy;
  }

  /** `sim_to_screen`: shift both coordinates by 20 and flip y. */
  function SimToScreen(winHeight: real, x: real, y: real): (real, real)
  {
    (x + 20.0, winHeight - (y + 20.0))
  }

  /** The way back from screen to simulation coordinates. */
  function ScreenToSim(winHeight: real, sx: real, sy: real): (real, real)
  {
    (sx - 20.0, winHeight - sy - 20.0)
  }

  /** The two mappings undo each other, so distinct points land on
      distinct pixels. */
  lemma SimToScreenRoundTrip(winHeight: real, x: real, y: real, sx: real, sy: real)
    ensures ScreenToSim(winHeight, SimToScreen(winHeight, x, y).0, SimToScreen(winHeight, x, y).1) == (x, y)
    ensures SimToScreen(winHeight, ScreenToSim(winHeight, sx, sy).0, ScreenToSim(winHeight, sx, sy).1) == (sx, sy)
  {
  }

  lemma SimToScreenInjective(winHeight: real, x1: real, y1: real, x2: real, y2: real)
    requires SimToScreen(winHeight, x1, y1) == SimToScreen(winHeight, x2, y2)
    ensures x1 == x2 && y1 == y2
  {
    SimToScreenRoundTrip(winHeight, x1, y1, 0.0, 0.0);
    SimToScreenRoundTrip(winHeight, x2, y2, 0.0, 0.0);
  }

  class Simulation {
    var x: real
    var vx: real
    var y: real
    var vy: real
    const mass: real
    const gamma: real
    const gravity: real
    const dt: real
    var currTime: real
    var paused: bool
    /** Empty until `Setup` creates them. */
    var traceX: seq<real>
    var traceY: seq<real>

    /** When the current run started and how many steps it has taken. */
    ghost var startTime: real
    ghost var steps: nat

    function State(): PState
      reads this
    {
      PState(x, y, vx, vy)
    }

    predicate IsSetUp()
      reads this
    {
      |traceX| > 0
    }

    /** Both traces have one entry more than the steps taken, ending at the
        current position, and the clock is one dt a step past the start. */
    ghost predicate Valid()
      reads this
    {
      && |traceX| == |traceY|
      && (IsSetUp() ==>
            && |traceX| == steps + 1
            && traceX[|traceX| - 1] == x && traceY[|traceY| - 1] == y
            && currTime == startTime + steps as real * dt)
    }

    /** A new simulation at rest at the origin, unit mass, drag 0.0001,
        gravity 9.8, a 33 ms step, and running (not paused). */
    constructor ()
      ensures Valid() && !IsSetUp()
      ensures State() == PState(0.0, 0.0, 0.0, 0.0) && currTime == 0.0
      ensures mass == 1.0 && gamma == 0.0001 && gravity == 9.8 && dt == 0.033
      ensures !paused && traceX == [] && traceY == []
    {
      x, vx, y, vy := 0.0, 0.0, 0.0, 0.0;
      mass, gamma, gravity, dt := 1.0, 0.0001, 9.8, 0.033;
      currTime := 0.0;
      paused := false;
      traceX, traceY := [], [];
    }

    /** Launch at the given speed in the direction whose cosine and sine
        are c and s, and start both traces at the current position. */
    method Setup(speed: real, c: real, s: real)
      requires Valid()
      modifies this
      ensures Valid() && IsSetUp()
      ensures State() == PState(old(x), old(y), speed * c, speed * s)
      ensures traceX == [x] && traceY == [y]
      ensures currTime == old(currTime) && paused == old(paused)
    {
      vx := speed * c;
      vy := speed * s;
      traceX := [x];
      traceY := [y];
      startTime, steps := currTime, 0;
    }

    /** Advance the clock by dt; if the solver still reports success, take
        the state it returns for the new time, otherwise keep the old one;
        either way extend both traces by one entry. */
    method Step(ok: bool, solved: PState)
      requires Valid() && IsSetUp()
      modifies this
      ensures Valid() && IsSetUp()
      ensures currTime == old(currTime) + dt
      ensures State() == if ok then solved else old(State())
      ensures traceX == old(traceX) + [x] && traceY == old(traceY) + [y]
      ensures paused == old(paused)
    {
      currTime := currTime + dt;
      if ok {
        x, y, vx, vy := solved.x, solved.y, solved.vx, solved.vy;
      }
      traceX := traceX + [x];
      traceY := traceY + [y];
      steps := steps + 1;
      assert currTime == startTime + steps as real * dt;
    }

    method Pause()
      requires Valid()
      modifies this`paused
      ensures Valid() && paused
    {
      paused := true;
    }

    method Resume()
      requires Valid()
      modifies this`paused
      ensures Valid() && !paused
    {
      paused := false;
    }
  }
}
