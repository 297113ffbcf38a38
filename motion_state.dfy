/** The single mutable motion state the program owns: position, velocity and
    acceleration updated in place once per frame, and the four input flags
    flipped in place by keyboard events. */
module State {
  import opened Clamping
  import opened Keys
  import opened Physics

  class MotionState {
    var px: real
    var py: real
    var vx: real
    var vy: real
    var ax: real
    var ay: real

    var up: bool
    var down: bool
    var left: bool
    var right: bool

    const maxVelocity: real
    const damping: real
    const accelerationForce: real
    const entityWidth: real
    const entityHeight: real
    const canvasWidth: real
    const canvasHeight: real

    function Settings(): Config
    {
      Config(maxVelocity, damping, accelerationForce, entityWidth, entityHeight,
             canvasWidth, canvasHeight)
    }

    function Flags(): Input
      reads this
    {
      Input(up, down, left, right)
    }

    function Current(): Motion
      reads this
    {
      Motion(Vec(px, py), Vec(vx, vy), Vec(ax, ay))
    }

    /** The state the program starts from: an 800 by 800 canvas, the entity
        at rest at its centre, no key held. */
    constructor ()
      ensures Settings() == Default
      ensures Flags() == NoInput
      ensures Current() == Motion(Vec(400.0, 400.0), Vec(0.0, 0.0), Vec(0.0, 0.0))
      ensures Settled(Settings(), Current())
    {
      var width, height := 800.0, 800.0;
      canvasWidth := width;
      canvasHeight := height;
      px := width / 2.0;
      py := height / 2.0;
      maxVelocity := 100.0;
      vx, vy := 0.0, 0.0;
      damping := 0.1;
      accelerationForce := 30.0;
      ax, ay := 0.0, 0.0;
      up, down, left, right := false, false, false, false;
      entityWidth := 30.0;
      entityHeight := 30.0;
    }

    /** One frame of motion, `elapsed` milliseconds after the previous one,
        in the program's seven stages, in order. Only acceleration, velocity
        and position change; the new values are those of Physics.Step, so the
        speed limit and the canvas bounds hold afterwards. */
    method Update(elapsed: real)
      modifies this`px, this`py, this`vx, this`vy, this`ax, this`ay
      ensures Current() == Step(Settings(), Flags(), old(Current()), elapsed)
      ensures Flags() == old(Flags())
      ensures 0.0 <= maxVelocity ==> SpeedLimited(Settings(), Current().velocity)
      ensures Settings().WellFormed() ==> Settled(Settings(), Current())
    {
      Accelerate(elapsed);
      ChangeVelocity();
      ChangePosition();
    }

    /** Stages 1 and 2: the acceleration is reset to zero, then each held
        direction adds or subtracts the frame's force on its axis. */
    method Accelerate(elapsed: real)
      modifies this`ax, this`ay
      ensures Vec(ax, ay) == Acceleration(Flags(), Force(Settings(), elapsed))
    {
      // 1) zero the acceleration
      ax := 0.0;
      ay := 0.0;

      // 2) add the push of every held direction
      var force := (elapsed * accelerationForce) / 1000.0;
      assert force == Force(Settings(), elapsed);
      if up {
        ay := ay + force;
      }
      if down {
        ay := ay - force;
      }
      if left {
        ax := ax - force;
      }
      if right {
        ax := ax + force;
      }
    }

    /** Stages 3 to 5: the acceleration is added to the velocity, damping
        adds the drag `-velocity * damping`, and each component is clamped to
        the speed limit. */
    method ChangeVelocity()
      modifies this`vx, this`vy
      ensures vx == AxisVelocity(Settings(), old(vx), ax)
      ensures vy == AxisVelocity(Settings(), old(vy), ay)
    {
      // 3) velocity plus acceleration
      vx := vx + ax;
      vy := vy + ay;

      // 4) damping
      vx := Damp(vx, damping);
      vy := Damp(vy, damping);

      // 5) speed limit
      vx := Clamp(-maxVelocity, maxVelocity, vx);
      vy := Clamp(-maxVelocity, maxVelocity, vy);
    }

    /** Stages 6 and 7: the velocity is added to the position, which is then
        clamped so that the entity stays on the canvas. */
    method ChangePosition()
      modifies this`px, this`py
      ensures px == Clamp(Settings().MinX(), Settings().MaxX(), old(px) + vx)
      ensures py == Clamp(Settings().MinY(), Settings().MaxY(), old(py) + vy)
    {
      // 6) position plus velocity
      px := px + vx;
      py := py + vy;

      // 7) keep the entity on the canvas
      px := Clamp(entityWidth / 2.0, canvasWidth - entityWidth / 2.0, px);
      py := Clamp(entityHeight / 2.0, canvasHeight - entityHeight / 2.0, py);
    }

    /** A keyboard event whose key identifier is `name`: key-down when
        `pressed`, key-up otherwise. A bound key assigns its flag; any other
        key is ignored. Motion is untouched. */
    method HandleKey(name: string, pressed: bool)
      modifies this`up, this`down, this`left, this`right
      ensures Flags() == ApplyKey(old(Flags()), KeyOf(name), pressed)
      ensures Current() == old(Current())
    {
      match Binding(KeyOf(name)) {
        case None =>
        case Some(Up) => up := pressed;
        case Some(Down) => down := pressed;
        case Some(Left) => left := pressed;
        case Some(Right) => right := pressed;
      }
    }
  }

  /** The program from start-up: ArrowUp is pressed, then one frame of one
      second runs. The entity, which started at rest at (400, 400), ends 27
      units up the screen. */
  method ArrowUpOneSecond() returns (x: real, y: real)
    ensures x == 400.0 && y == 373.0
  {
    var s := new MotionState();
    s.HandleKey("ArrowUp", true);
    ArrowUpDrivesDown();
    assert s.Flags() == Input(false, true, false, false);
    var before := s.Current();
    s.Update(1000.0);
    DownHeldFrame(s.Settings(), s.Flags(), before, 1000.0);
    x, y := s.px, s.py;
  }
}
