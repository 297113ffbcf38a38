/** One frame of the motion step as a function on values: the specification
    that the in-place update of the motion state is proved against, and the
    properties of single frames and of runs of frames. */
module Physics {
  import opened Clamping
  import opened Keys

  datatype Vec = Vec(x: real, y: real)

  /** The fixed parameters of the simulation. */
  datatype Config = Config(
    maxVelocity: real,
    damping: real,
    accelerationForce: real,
    entityWidth: real,
    entityHeight: real,
    canvasWidth: real,
    canvasHeight: real)
  {
    /** The range the entity's centre may take so that it stays on the canvas. */
    function MinX(): real { entityWidth / 2.0 }
    function MaxX(): real { canvasWidth - entityWidth / 2.0 }
    function MinY(): real { entityHeight / 2.0 }
    function MaxY(): real { canvasHeight - entityHeight / 2.0 }

    /** A speed limit that is not negative and an entity that fits on the canvas. */
    predicate WellFormed()
    {
      0.0 <= maxVelocity && entityWidth <= canvasWidth && entityHeight <= canvasHeight
    }
  }

  /** The parameters the program starts with: an 800 by 800 canvas and a 30 by
      30 entity. */
  const Default := Config(100.0, 0.1, 30.0, 30.0, 30.0, 800.0, 800.0)

  /** The part of the motion state that a frame changes. */
  datatype Motion = Motion(position: Vec, velocity: Vec, acceleration: Vec)

  predicate SpeedLimited(c: Config, v: Vec)
  {
    -c.maxVelocity <= v.x <= c.maxVelocity && -c.maxVelocity <= v.y <= c.maxVelocity
  }

  predicate OnCanvas(c: Config, p: Vec)
  {
    c.MinX() <= p.x <= c.MaxX() && c.MinY() <= p.y <= c.MaxY()
  }

  /** The state invariant: speed within the limit, entity fully on the canvas. */
  predicate Settled(c: Config, m: Motion)
  {
    SpeedLimited(c, m.velocity) && OnCanvas(c, m.position)
  }

  /** The push one held direction gives in a frame: the acceleration force,
      which is per second, scaled by the elapsed milliseconds. */
  function Force(c: Config, elapsed: real): (r: real)
    ensures elapsed == 1000.0 ==> r == c.accelerationForce
    ensures elapsed == 0.0 ==> r == 0.0
  {
    (elapsed * c.accelerationForce) / 1000.0
  }

  /** The net push along one axis when `plus` pushes one way and `minus` the
      other; the two are added, so holding both cancels. */
  function Signed(plus: bool, minus: bool, force: real): (r: real)
    ensures plus == minus ==> r == 0.0
    ensures plus && !minus ==> r == force
    ensures minus && !plus ==> r == -force
  {
    (if plus then force else 0.0) - (if minus then force else 0.0)
  }

  /** The acceleration of a frame: up and right push towards larger
      coordinates, down and left towards smaller ones. */
  function Acceleration(i: Input, force: real): (r: Vec)
    ensures i.left == i.right ==> r.x == 0.0
    ensures i.right && !i.left ==> r.x == force
    ensures i.left && !i.right ==> r.x == -force
    ensures i.up == i.down ==> r.y == 0.0
    ensures i.up && !i.down ==> r.y == force
    ensures i.down && !i.up ==> r.y == -force
  {
    Vec(Signed(i.right, i.left, force), Signed(i.up, i.down, force))
  }

  /** Damping: the velocity plus a drag of `-v * d`. */
  function Damp(v: real, d: real): (r: real)
    ensures d == 0.0 ==> r == v
    ensures d == 1.0 || v == 0.0 ==> r == 0.0
  {
    v + (-v) * d
  }

  /** Stages 3 to 5 along one axis: the old velocity plus the acceleration,
      damped, then clamped to the speed limit. */
  function AxisVelocity(c: Config, v: real, a: real): (r: real)
    ensures 0.0 <= c.maxVelocity ==> -c.maxVelocity <= r <= c.maxVelocity
  {
    Clamp(-c.maxVelocity, c.maxVelocity, Damp(v + a, c.damping))
  }

  /** Damping keeps the fraction `1 - damping` of the accelerated velocity,
      before the speed limit applies. */
  lemma DampingScalesVelocity(c: Config, v: real, a: real)
    ensures AxisVelocity(c, v, a) == Clamp(-c.maxVelocity, c.maxVelocity, (1.0 - c.damping) * (v + a))
  {
    assert Damp(v + a, c.damping) == (1.0 - c.damping) * (v + a);
  }

  /** One frame, stage by stage: acceleration from the held inputs; velocity
      plus acceleration; damping; velocity clamped to the speed limit; position
      plus the clamped velocity; position clamped to the canvas. */
  function Step(c: Config, i: Input, m: Motion, elapsed: real): (r: Motion)
    ensures 0.0 <= c.maxVelocity ==> SpeedLimited(c, r.velocity)
    ensures c.entityWidth <= c.canvasWidth ==> c.MinX() <= r.position.x <= c.MaxX()
    ensures c.entityHeight <= c.canvasHeight ==> c.MinY() <= r.position.y <= c.MaxY()
    ensures c.MinX() <= m.position.x + r.velocity.x <= c.MaxX() ==>
              r.position.x == m.position.x + r.velocity.x
    ensures c.MinY() <= m.position.y + r.velocity.y <= c.MaxY() ==>
              r.position.y == m.position.y + r.velocity.y
    ensures c.WellFormed() ==> Settled(c, r)
  {
    var a := Acceleration(i, Force(c, elapsed));
    var v := Vec(AxisVelocity(c, m.velocity.x, a.x), AxisVelocity(c, m.velocity.y, a.y));
    var p := Vec(m.position.x + v.x, m.position.y + v.y);
    Motion(Vec(Clamp(c.MinX(), c.MaxX(), p.x), Clamp(c.MinY(), c.MaxY(), p.y)), v, a)
  }

  /** The acceleration is rebuilt from the inputs every frame: whatever it was
      before does not matter. */
  lemma AccelerationIgnoresHistory(c: Config, i: Input, m1: Motion, m2: Motion, elapsed: real)
    ensures Step(c, i, m1, elapsed).acceleration == Step(c, i, m2, elapsed).acceleration
    ensures Step(c, i, m1, elapsed).acceleration.x ==
              (if i.right then Force(c, elapsed) else 0.0) - (if i.left then Force(c, elapsed) else 0.0)
    ensures Step(c, i, m1, elapsed).acceleration.y ==
              (if i.up then Force(c, elapsed) else 0.0) - (if i.down then Force(c, elapsed) else 0.0)
  {
  }

  /** With no direction held, a damping factor in [0, 1] and a non-negative
      speed limit, no velocity component grows in magnitude; with positive
      damping every non-zero component strictly shrinks. */
  lemma CoastingNeverSpeedsUp(c: Config, m: Motion, elapsed: real)
    requires 0.0 <= c.damping <= 1.0 && 0.0 <= c.maxVelocity
    ensures Abs(Step(c, NoInput, m, elapsed).velocity.x) <= Abs(m.velocity.x)
    ensures Abs(Step(c, NoInput, m, elapsed).velocity.y) <= Abs(m.velocity.y)
    ensures 0.0 < c.damping && m.velocity.x != 0.0 ==>
              Abs(Step(c, NoInput, m, elapsed).velocity.x) < Abs(m.velocity.x)
    ensures 0.0 < c.damping && m.velocity.y != 0.0 ==>
              Abs(Step(c, NoInput, m, elapsed).velocity.y) < Abs(m.velocity.y)
  {
    var r := Step(c, NoInput, m, elapsed);
    assert r.velocity == Vec(AxisVelocity(c, m.velocity.x, 0.0), AxisVelocity(c, m.velocity.y, 0.0));
    AxisCoasts(c, m.velocity.x);
    AxisCoasts(c, m.velocity.y);
  }

  /** The one-axis form of CoastingNeverSpeedsUp. */
  lemma AxisCoasts(c: Config, v: real)
    requires 0.0 <= c.damping <= 1.0 && 0.0 <= c.maxVelocity
    ensures Abs(AxisVelocity(c, v, 0.0)) <= Abs(v)
    ensures 0.0 < c.damping && v != 0.0 ==> Abs(AxisVelocity(c, v, 0.0)) < Abs(v)
  {
    var k := 1.0 - c.damping;
    DampingScalesVelocity(c, v, 0.0);
    assert v + 0.0 == v;
    ScaledShrinks(k, v);
    ClampSymmetricShrinks(c.maxVelocity, k * v);
  }

  /** Scaling by a factor in [0, 1] never moves away from zero, and a factor
      below 1 moves every non-zero value strictly closer. */
  lemma ScaledShrinks(k: real, v: real)
    requires 0.0 <= k <= 1.0
    ensures Abs(k * v) <= Abs(v)
    ensures k < 1.0 && v != 0.0 ==> Abs(k * v) < Abs(v)
  {
    if v < 0.0 {
      assert k * v == -(k * -v);
      assert k * -v <= -v;
    } else {
      assert k * v <= v;
    }
  }

  /** An entity at rest on the canvas with no direction held stays exactly
      where it is. */
  lemma RestIsFixedPoint(c: Config, m: Motion, elapsed: real)
    requires 0.0 <= c.maxVelocity
    requires m.velocity == Vec(0.0, 0.0) && OnCanvas(c, m.position)
    ensures Step(c, NoInput, m, elapsed).position == m.position
    ensures Step(c, NoInput, m, elapsed).velocity == m.velocity
  {
  }

  /** If the entity is at rest along x, inside the canvas's x range, with both
      or neither of left and right held, it does not move along x. */
  lemma IdleXStaysPut(c: Config, i: Input, m: Motion, elapsed: real)
    requires 0.0 <= c.maxVelocity
    requires i.left == i.right && m.velocity.x == 0.0 && c.MinX() <= m.position.x <= c.MaxX()
    ensures Step(c, i, m, elapsed).velocity.x == 0.0
    ensures Step(c, i, m, elapsed).position.x == m.position.x
  {
  }

  /** The same for y, with up and down. */
  lemma IdleYStaysPut(c: Config, i: Input, m: Motion, elapsed: real)
    requires 0.0 <= c.maxVelocity
    requires i.up == i.down && m.velocity.y == 0.0 && c.MinY() <= m.position.y <= c.MaxY()
    ensures Step(c, i, m, elapsed).velocity.y == 0.0
    ensures Step(c, i, m, elapsed).position.y == m.position.y
  {
  }

  /** One frame as the frame driver sees it: the inputs held and the time since
      the previous frame. */
  datatype Frame = Frame(input: Input, elapsed: real)

  /** Successive frames, each starting from the motion the previous one left.
      The acceleration at the end is that of the last frame's inputs alone. */
  function Run(c: Config, m: Motion, frames: seq<Frame>): (r: Motion)
    ensures frames == [] ==> r == m
    ensures frames != [] ==>
              r.acceleration == Acceleration(frames[|frames| - 1].input, Force(c, frames[|frames| - 1].elapsed))
    decreases |frames|
  {
    if frames == [] then m
    else Run(c, Step(c, frames[0].input, m, frames[0].elapsed), frames[1..])
  }

  /** For a well-formed configuration the state invariant holds after any run
      that starts from it, and after any run of at least one frame whatever the
      starting state. */
  lemma {:induction false} RunSettles(c: Config, m: Motion, frames: seq<Frame>)
    requires c.WellFormed()
    requires Settled(c, m) || |frames| > 0
    ensures Settled(c, Run(c, m, frames))
    decreases |frames|
  {
    if frames != [] {
      RunSettles(c, Step(c, frames[0].input, m, frames[0].elapsed), frames[1..]);
    }
  }

  /** Repeated frames with no direction held leave an entity at rest on the
      canvas exactly where it is. */
  lemma {:induction false} RestPersists(c: Config, m: Motion, frames: seq<Frame>)
    requires 0.0 <= c.maxVelocity
    requires m.velocity == Vec(0.0, 0.0) && OnCanvas(c, m.position)
    requires forall k :: 0 <= k < |frames| ==> frames[k].input == NoInput
    ensures Run(c, m, frames).position == m.position
    ensures Run(c, m, frames).velocity == m.velocity
    decreases |frames|
  {
    if frames != [] {
      var next := Step(c, frames[0].input, m, frames[0].elapsed);
      RestIsFixedPoint(c, m, frames[0].elapsed);
      RestPersists(c, next, frames[1..]);
    }
  }

  /** Over any run with no direction held, no velocity component ends larger in
      magnitude than it started. */
  lemma {:induction false} CoastingSlowsDown(c: Config, m: Motion, frames: seq<Frame>)
    requires 0.0 <= c.damping <= 1.0 && 0.0 <= c.maxVelocity
    requires forall k :: 0 <= k < |frames| ==> frames[k].input == NoInput
    ensures Abs(Run(c, m, frames).velocity.x) <= Abs(m.velocity.x)
    ensures Abs(Run(c, m, frames).velocity.y) <= Abs(m.velocity.y)
    decreases |frames|
  {
    if frames != [] {
      var next := Step(c, frames[0].input, m, frames[0].elapsed);
      CoastingNeverSpeedsUp(c, m, frames[0].elapsed);
      CoastingSlowsDown(c, next, frames[1..]);
    }
  }

  /** The starting parameters keep the entity inside the canvas. */
  lemma DefaultWellFormed()
    ensures Default.WellFormed()
    ensures Default.MinX() == 15.0 && Default.MaxX() == 785.0
  {
  }

  /** A one-second frame with only `down` held (the flag the ArrowUp key
      drives, see Keys.ArrowUpDrivesDown), from rest at the centre of the
      canvas with the starting parameters: the acceleration is -30 along y,
      damping keeps 90% of it as velocity, and the entity moves 27 units
      towards smaller y. */
  lemma DownHeldFrame(c: Config, i: Input, m: Motion, elapsed: real)
    requires c == Default && i == Input(false, true, false, false) && elapsed == 1000.0
    requires m == Motion(Vec(400.0, 400.0), Vec(0.0, 0.0), Vec(0.0, 0.0))
    ensures Step(c, i, m, elapsed).acceleration == Vec(0.0, -30.0)
    ensures Step(c, i, m, elapsed).velocity == Vec(0.0, -27.0)
    ensures Step(c, i, m, elapsed).position.x == 400.0
    ensures Step(c, i, m, elapsed).position.y == 373.0
  {
    var r := Step(c, i, m, elapsed);
    AccelerationIgnoresHistory(c, i, m, m, elapsed);
    assert Force(c, elapsed) == 30.0;
    assert r.acceleration == Vec(0.0, -30.0);
    assert r.velocity.y == AxisVelocity(c, 0.0, -30.0);
    DampingScalesVelocity(c, 0.0, -30.0);
    assert (1.0 - c.damping) * (0.0 + -30.0) == -27.0;
    assert r.velocity == Vec(0.0, -27.0);
    assert c.MinX() == c.MinY() == 15.0;
    assert c.MaxX() == c.MaxY() == 785.0;
    IdleXStaysPut(c, i, m, elapsed);
    assert m.position.y + r.velocity.y == 373.0;
  }
}
