/** The player (player.py): position, velocity and acceleration, the discrete state that picks
    the sprite and behaviour, the double-jump flag, and health, score and session coins. */
module Players {

  /** currentState.  The source also names a SWING state (2) that nothing ever enters. */
  datatype Mode = Stance | Running | Jumping | Climbing

  /** orientation: only flips the sprite when drawing. */
  datatype Facing = FacingLeft | FacingRight

  /** The lowest resting plane: the underground floor. */
  const Floor: real := 600.0
  /** The ladder top and surface plane. */
  const LadderTop: real := 400.0
  /** A jump turns round at or above this height. */
  const Apex: real := 300.0
  /** The second plane the source tests jumps against. */
  const LowPlane: real := 604.0
  /** Sprites are drawn from y = 690 minus the idle sprite's height on the underground floor. */
  const FloorLine: real := 690.0

  /** The physics fields: pos, velocity, acceleration, currentState and doubled. */
  datatype Body = Body(x: real, y: real, vx: real, vy: real, ax: real, ay: real, mode: Mode, doubled: bool)

  /** jump(): above the floor, accelerate upwards and, unless the jump is already doubled,
      speed up the horizontal motion by half (one test for each sign, as in the source);
      on the floor, only return to Stance. */
  function JumpBody(b: Body): (r: Body)
  {
    if b.y < Floor then
      var ax1 := if b.ax > 0.0 && !b.doubled then b.ax * 1.5 else b.ax;
      var ax2 := if ax1 < 0.0 && !b.doubled then ax1 * 1.5 else ax1;
      b.(ay := -25.0, ax := ax2)
    else
      b.(mode := Stance)
  }

  /** jump() changes what it promises and nothing else. */
  lemma JumpRule(b: Body)
    ensures var r := JumpBody(b);
      && (b.y < Floor ==>
            r == b.(ay := -25.0, ax := if b.ax != 0.0 && !b.doubled then b.ax * 1.5 else b.ax))
      && (b.y >= Floor ==> r == b.(mode := Stance))
  {
  }

  /** Below the floor: land on it, stop vertically, Stance, double jump re-armed. */
  function SinkToFloor(b: Body): Body
  {
    if b.y > Floor then b.(ay := 0.0, vy := 0.0, y := Floor, mode := Stance, doubled := false) else b
  }

  /** Climbing up (acceleration -5) past the ladder top: stand on it. */
  function StepOffLadder(b: Body): Body
  {
    if b.ay == -5.0 && b.y <= LadderTop then b.(ay := 0.0, vy := 0.0, y := LadderTop, mode := Stance, doubled := false) else b
  }

  /** pos += acceleration, then no further left than 0. */
  function Move(b: Body): (r: Body)
    ensures r.x >= 0.0
    ensures r.x == if b.x + b.ax < 0.0 then 0.0 else b.x + b.ax
    ensures r.y == b.y + b.ay
  {
    var nx := b.x + b.ax;
    b.(x := if nx < 0.0 then 0.0 else nx, y := b.y + b.ay)
  }

  /** A rising jump that reaches the apex, or stands on the low plane, turns downwards. */
  function TurnAtApex(b: Body): Body
  {
    if b.ay <= -25.0 && b.y <= Apex then b.(ay := 25.0)
    else if b.ay <= -25.0 && b.y == LowPlane then b.(ay := 25.0)
    else b
  }

  /** A falling jump that arrives on the ladder-top plane lands: vertical motion stops, the
      boosted horizontal motion is undone and the player runs on, or stands if not moving. */
  function Land(b: Body): Body
  {
    if b.ay >= 25.0 && b.y == LadderTop then
      if b.ax > 0.0 || b.ax < 0.0 then b.(ay := 0.0, ax := b.ax / 1.5, mode := Running)
      else b.(ay := 0.0, mode := Stance)
    else b
  }

  /** A rising jump drawn at the underground floor line stands and re-arms the double jump. */
  function ReArmOnFloor(b: Body, idleHeight: real): Body
  {
    if b.y >= FloorLine - idleHeight && b.ay <= -25.0 then b.(mode := Stance, doubled := false) else b
  }

  /** A rising jump on the ladder-top plane stops. */
  function StopOnLadderTop(b: Body): Body
  {
    if b.y == LadderTop && b.ay <= -25.0 then b.(ay := 0.0, vy := 0.0, doubled := false) else b
  }

  /** A rising jump on the low plane stops. */
  function StopOnLowPlane(b: Body): Body
  {
    if b.ay <= -25.0 && b.y == LowPlane then b.(ay := 0.0, vy := 0.0, doubled := false) else b
  }

  /** update(): the guarded steps in the source's order.  It never starts a jump or a
      climb, never sets the doubled flag, never touches the horizontal velocity, and never
      leaves the player left of x = 0. */
  function Physics(b: Body, idleHeight: real): (r: Body)
    ensures r.x >= 0.0 && r.vx == b.vx
    ensures r.mode == b.mode || r.mode == Stance || r.mode == Running
    ensures !b.doubled ==> !r.doubled
  {
    var b1 := SinkToFloor(b);
    var b2 := StepOffLadder(b1);
    var b3 := Move(b2);
    var b4 := TurnAtApex(b3);
    var b5 := Land(b4);
    var b6 := ReArmOnFloor(b5, idleHeight);
    var b7 := StopOnLadderTop(b6);
    StopOnLowPlane(b7)
  }

  /** Below the floor on entry, the player is put on it, stopped vertically, set to Stance
      and re-armed before moving: the move then starts from y = 600 with no vertical motion. */
  lemma FloorClampBeforeMotion(b: Body, idleHeight: real)
    requires b.y > Floor
    ensures var m := Move(StepOffLadder(SinkToFloor(b)));
      m.y == Floor && m.ay == 0.0 && m.vy == 0.0 && m.mode == Stance && !m.doubled
  {
  }

  /** update() displaces the player by the acceleration exactly once (x floored at 0), and
      ends with x >= 0; velocity never moves it. */
  lemma MotionOnce(b: Body, idleHeight: real)
    ensures var a := StepOffLadder(SinkToFloor(b));
            var r := Physics(b, idleHeight);
      && r.x == (if a.x + a.ax < 0.0 then 0.0 else a.x + a.ax)
      && r.x >= 0.0
  {
  }

  /** The apex rule: a rising jump that the motion of update() brings to y <= 300 ends
      the update accelerating 25 downwards, where the motion left it. */
  lemma ApexRule(b: Body, idleHeight: real)
    ensures var m := Move(StepOffLadder(SinkToFloor(b)));
            var r := Physics(b, idleHeight);
      m.ay <= -25.0 && m.y <= Apex ==> r.ay == 25.0 && r.y == m.y && r.x == m.x
  {
  }

  /** The landing rule: a falling jump (downward acceleration at least 25) that the motion
      of update() brings onto the ladder-top plane ends the update with its vertical
      acceleration stopped, its boost undone and running on, or standing if it was not
      moving sideways. */
  lemma LandingRule(b: Body, idleHeight: real)
    ensures var t := TurnAtApex(Move(StepOffLadder(SinkToFloor(b))));
            var r := Physics(b, idleHeight);
      t.ay >= 25.0 && t.y == LadderTop ==>
        && r.ay == 0.0 && r.y == LadderTop
        && (t.ax != 0.0 ==> r.ax == t.ax / 1.5 && r.mode == Running)
        && (t.ax == 0.0 ==> r.ax == 0.0 && r.mode == Stance)
  {
  }

  /** The last guarded step of update() never fires: a rising jump on the low plane has
      already been turned downwards by the apex rule. */
  lemma LowPlaneStopIsDead(b: Body, idleHeight: real)
    ensures var b6 := ReArmOnFloor(Land(TurnAtApex(Move(StepOffLadder(SinkToFloor(b))))), idleHeight);
      StopOnLowPlane(StopOnLadderTop(b6)) == StopOnLadderTop(b6)
  {
  }

  /** A first jump while moving boosts the horizontal acceleration, and landing on the
      ladder-top plane undoes the boost: the player runs on as fast as before the jump. */
  lemma BoostUndone(b: Body)
    requires b.y < Floor && !b.doubled && b.ax != 0.0
    ensures JumpBody(b).ax == b.ax * 1.5
    ensures var landed := Land(JumpBody(b).(y := LadderTop, ay := 25.0));
            landed.ax == b.ax && landed.mode == Running && landed.ay == 0.0
  {
  }

  class Player {
    var x: real
    var y: real
    var vx: real
    var vy: real
    var ax: real
    var ay: real
    var currentState: Mode
    var orientation: Facing
    var health: int
    var score: int
    var coins: int
    var doubled: bool
    /** Height of the first idle sprite (an image size, so a parameter). */
    const idleHeight: real

    function Snapshot(): Body
      reads this
    {
      Body(x, y, vx, vy, ax, ay, currentState, doubled)
    }

    /** Player(x, y): at rest in Stance facing right, six health, no score, no coins. */
    constructor (x0: real, y0: real, idleHeight: real)
      ensures Snapshot() == Body(x0, y0, 0.0, 0.0, 0.0, 0.0, Stance, false)
      ensures orientation == FacingRight && health == 6 && score == 0 && coins == 0
      ensures this.idleHeight == idleHeight
    {
      x, y := x0, y0;
      vx, vy := 0.0, 0.0;
      ax, ay := 0.0, 0.0;
      currentState := Stance;
      orientation := FacingRight;
      health, score, coins := 6, 0, 0;
      doubled := false;
      this.idleHeight := idleHeight;
    }

    method Jump()
      modifies this
      ensures Snapshot() == JumpBody(old(Snapshot()))
      ensures orientation == old(orientation) && health == old(health)
      ensures score == old(score) && coins == old(coins)
    {
      if y < Floor {
        ay := -25.0;
        if ax > 0.0 && !doubled {
          ax := ax * 1.5;
        }
        if ax < 0.0 && !doubled {
          ax := ax * 1.5;
        }
      } else {
        currentState := Stance;
      }
    }

    /** fall(): start down a ladder. */
    method Fall()
      modifies this
      ensures Snapshot() == old(Snapshot()).(ay := 10.0, ax := 0.0, vx := 0.0, mode := Climbing)
      ensures orientation == old(orientation) && health == old(health)
      ensures score == old(score) && coins == old(coins)
    {
      ay := 10.0;
      ax := 0.0;
      vx := 0.0;
      currentState := Climbing;
    }

    /** rise(): start up a ladder. */
    method Rise()
      modifies this
      ensures Snapshot() == old(Snapshot()).(ay := -5.0, ax := 0.0, vx := 0.0, mode := Climbing)
      ensures orientation == old(orientation) && health == old(health)
      ensures score == old(score) && coins == old(coins)
    {
      ay := -5.0;
      ax := 0.0;
      vx := 0.0;
      currentState := Climbing;
    }

    method Left()
      modifies this
      ensures Snapshot() == old(Snapshot()).(ax := -15.0)
      ensures orientation == old(orientation) && health == old(health)
      ensures score == old(score) && coins == old(coins)
    {
      ax := -15.0;
    }

    method Right()
      modifies this
      ensures Snapshot() == old(Snapshot()).(ax := 15.0)
      ensures orientation == old(orientation) && health == old(health)
      ensures score == old(score) && coins == old(coins)
    {
      ax := 15.0;
    }

    method Stop()
      modifies this
      ensures Snapshot() == old(Snapshot()).(ax := 0.0)
      ensures orientation == old(orientation) && health == old(health)
      ensures score == old(score) && coins == old(coins)
    {
      ax := 0.0;
    }

    /** update(); the rectangle it moves is not modelled (collisions are given). */
    method Update()
      modifies this
      ensures Snapshot() == Physics(old(Snapshot()), idleHeight)
      ensures x >= 0.0
      ensures orientation == old(orientation) && health == old(health)
      ensures score == old(score) && coins == old(coins)
    {
      SettleOnPlanes();
      Displace();
      TurnOrLand();
      EndRisingJump();
    }

    /** The two resting-plane clamps that run before motion. */
    method SettleOnPlanes()
      modifies this
      ensures Snapshot() == StepOffLadder(SinkToFloor(old(Snapshot())))
      ensures orientation == old(orientation) && health == old(health)
      ensures score == old(score) && coins == old(coins)
    {
      if y > Floor {
        ay := 0.0;
        vy := 0.0;
        y := Floor;
        currentState := Stance;
        doubled := false;
      }
      if ay == -5.0 && y <= LadderTop {
        ay := 0.0;
        vy := 0.0;
        y := LadderTop;
        currentState := Stance;
        doubled := false;
      }
    }

    /** The equations of motion and the left border. */
    method Displace()
      modifies this
      ensures Snapshot() == Move(old(Snapshot()))
      ensures orientation == old(orientation) && health == old(health)
      ensures score == old(score) && coins == old(coins)
    {
      x, y := x + ax, y + ay;
      if x < 0.0 {
        x := 0.0;
      }
    }

    /** The apex turn and the landing. */
    method TurnOrLand()
      modifies this
      ensures Snapshot() == Land(TurnAtApex(old(Snapshot())))
      ensures orientation == old(orientation) && health == old(health)
      ensures score == old(score) && coins == old(coins)
    {
      if ay <= -25.0 && y <= Apex {
        ay := 25.0;
      } else if ay <= -25.0 && y == LowPlane {
        ay := 25.0;
      }
      if ay >= 25.0 && y == LadderTop {
        ay := 0.0;
        if ax > 0.0 || ax < 0.0 {
          ax := ax / 1.5;
          currentState := Running;
        } else {
          currentState := Stance;
        }
      }
    }

    /** The three checks on a still-rising jump. */
    method EndRisingJump()
      modifies this
      ensures Snapshot() == StopOnLowPlane(StopOnLadderTop(ReArmOnFloor(old(Snapshot()), idleHeight)))
      ensures orientation == old(orientation) && health == old(health)
      ensures score == old(score) && coins == old(coins)
    {
      if y >= FloorLine - idleHeight && ay <= -25.0 {
        currentState := Stance;
        doubled := false;
      }
      if y == LadderTop && ay <= -25.0 {
        ay := 0.0;
        vy := 0.0;
        doubled := false;
      }
      if ay <= -25.0 && y == LowPlane {
        ay := 0.0;
        vy := 0.0;
        doubled := false;
      }
    }
  }
}
