/** The level's entities (entity.py): rolling barrels, ghosts, rats, snakes, collapsing pits,
    coins, walls and ladders.  One class, tagged by kind, holds the fields the source's
    eight classes update; `Advance` is the reference definition of one update() call. */
module Entities {
  import opened Geometry

  datatype Kind = Barrel | Ghost | Rat | Snake | Pit | Wall | Ladder | Coin
  {
    /** Kinds that have an update() method; walls and ladders are static. */
    predicate Animated() { !Wall? && !Ladder? }

    /** The animals the Dead Zone power-up removes. */
    predicate Animal() { Ghost? || Rat? || Snake? }

    /** Kinds that cost one point of health on contact and are then removed. */
    predicate Harmful() { Barrel? || Animal() }
  }

  /** The pit's strip: 8 opening frames followed by the same 8 mirrored. */
  const PitStrip := 16
  /** A visible pit at this frame hides. */
  const PitHideFrame := 7
  /** A pit reappears at this frame. */
  const PitReopenFrame := 8
  /** How many updates a pit stays hidden. */
  const PitHiddenTicks := 40
  /** Frames of the coin strip; the last one is never shown. */
  const CoinStrip := 8
  /** The widest first frame for which two spawn rectangles always fit side by side in the
      narrowest placement range (140..555). */
  const MaxSpawnWidth := 207

  datatype Size = Size(w: int, h: int)

  /** Pixel sizes of each kind's first sprite frame, and the widths of the 16 pit frames
      (images are not modelled; their sizes are parameters). */
  datatype Sprites = Sprites(
    barrelSize: Size, ghostSize: Size, ratSize: Size, snakeSize: Size,
    pitWidths: seq<int>, pitHeight: int,
    wallSize: Size, ladderSize: Size, coinSize: Size)
  {
    /** Size of the frame an entity of kind `k` is created with. */
    function SizeOf(k: Kind): Size
    {
      match k
      case Barrel => barrelSize
      case Ghost => ghostSize
      case Rat => ratSize
      case Snake => snakeSize
      case Pit => Size(if |pitWidths| > 0 then pitWidths[0] else 0, pitHeight)
      case Wall => wallSize
      case Ladder => ladderSize
      case Coin => coinSize
    }

    /** The sizes the level generator can work with: a full pit strip, and first frames
        that are non-empty and no wider than MaxSpawnWidth. */
    ghost predicate Fits()
    {
      && |pitWidths| == PitStrip
      && forall k: Kind :: 0 < SizeOf(k).w <= MaxSpawnWidth && 0 < SizeOf(k).h
    }
  }

  /** Where a pit was created and the widths of its frames; a visible pit is recentred on
      its original position whenever its frame changes. */
  datatype PitShape = PitShape(originX: real, widths: seq<int>)

  /** The fields an update() call changes: pos.x, animationIndex, animationTimer, and the
      pit's drawing flag and disappearingTimer. */
  datatype EntityState = EntityState(x: real, index: int, timer: int, drawing: bool, hidden: int)

  /** The state every entity starts in. */
  function Spawned(x: real): EntityState
  {
    EntityState(x, 0, 0, true, 0)
  }

  /** The other frame of a two-frame strip. */
  function Flip(i: int): int
  {
    if i == 0 then 1 else 0
  }

  /** Updates between two frame changes of a ghost, rat or snake. */
  function Period(k: Kind): int
    requires k.Animal()
  {
    if k == Snake then 5 else 3
  }

  /** Leftward distance a barrel, ghost, rat or snake covers per update. */
  function Speed(k: Kind): real
    requires k.Harmful()
  {
    match k
    case Barrel => 10.0
    case Ghost => 5.0
    case Rat => 8.0
    case Snake => 0.0
  }

  /** The states each kind's update() keeps itself in. */
  ghost predicate Inv(k: Kind, s: EntityState, shape: PitShape)
  {
    match k
    case Barrel => 0 <= s.index <= 1 && s.timer == 0
    case Ghost => 0 <= s.index <= 1 && 0 <= s.timer < Period(k)
    case Rat => 0 <= s.index <= 1 && 0 <= s.timer < Period(k)
    case Snake => 0 <= s.index <= 1 && 0 <= s.timer < Period(k)
    case Pit =>
      && |shape.widths| == PitStrip
      && 0 <= s.index < PitStrip
      && 0 <= s.hidden < PitHiddenTicks
      && (s.drawing ==> s.hidden == 0 && 0 <= s.timer <= 1 && (s.index == PitHideFrame ==> s.timer == 0))
      && (!s.drawing ==> s.index == PitHideFrame && s.timer == s.hidden + 1)
    case Coin => 0 <= s.index < CoinStrip && 0 <= s.timer
    case Wall => true
    case Ladder => true
  }

  /** Barrel.update: swap the frame, roll 10 to the left. */
  function BarrelUpdate(s: EntityState): (r: EntityState)
    ensures r.x == s.x - 10.0 && r.index == Flip(s.index) && r.index != s.index
    ensures r.timer == s.timer && r.drawing == s.drawing && r.hidden == s.hidden
  {
    s.(index := Flip(s.index), x := s.x - 10.0)
  }

  /** Ghost, Rat and Snake update: count the update, move `speed` to the left, and swap the
      frame when the count reaches `period`, restarting the count. */
  function CadencedUpdate(s: EntityState, speed: real, period: int): (r: EntityState)
    ensures r.x == s.x - speed
    ensures (r.index != s.index) == (s.timer + 1 >= period)
    ensures r.index == s.index || r.index == Flip(s.index)
    ensures 0 <= s.timer < period ==> 0 <= r.timer < period
    ensures r.drawing == s.drawing && r.hidden == s.hidden
  {
    var t := s.timer + 1;
    if t >= period then s.(x := s.x - speed, timer := 0, index := Flip(s.index))
    else s.(x := s.x - speed, timer := t)
  }

  /** Pit.update.  Hidden: count towards PitHiddenTicks, then reappear at frame 8 with both
      timers cleared.  Visible: hide if the frame is 7, wrap frame 15 to 0, recentre on the
      original position, and every second update step to the next frame (the source's wrap
      test on that step cannot fire, as the frame is below 15 there). */
  function PitUpdate(s: EntityState, shape: PitShape): (r: EntityState)
    requires 0 <= s.index < PitStrip && |shape.widths| == PitStrip
    ensures 0 <= r.index < PitStrip
    ensures !s.drawing && s.hidden + 1 >= PitHiddenTicks ==>
              r == s.(drawing := true, hidden := 0, timer := 0, index := PitReopenFrame)
    ensures !s.drawing && s.hidden + 1 < PitHiddenTicks ==>
              r == s.(hidden := s.hidden + 1, timer := s.timer + 1)
    ensures s.drawing ==> r.drawing == (s.index != PitHideFrame) && r.hidden == s.hidden
  {
    var t := s.timer + 1;
    if !s.drawing then
      var h := s.hidden + 1;
      if h >= PitHiddenTicks then s.(drawing := true, hidden := 0, timer := 0, index := PitReopenFrame)
      else s.(timer := t, hidden := h)
    else
      var shown := if s.index >= PitStrip - 1 then 0 else s.index;
      var x := shape.originX + shape.widths[0] as real / 2.0 - shape.widths[shown] as real / 2.0;
      var drawing := s.index != PitHideFrame;
      if t >= 2 then
        s.(drawing := drawing, x := x, timer := 0, index := shown + 1)
      else
        s.(drawing := drawing, x := x, timer := t, index := shown)
  }

  /** Coin.update: step to the next frame, wrapping before the last one; the second,
      timer-driven step is written out although the timer is never increased (its own wrap
      test cannot fire, as the frame is below 7 there). */
  function CoinUpdate(s: EntityState): (r: EntityState)
    ensures s.timer < 2 ==> r.timer == s.timer
    ensures s.timer < 2 && 0 <= s.index ==> 0 <= r.index < CoinStrip - 1
    ensures 0 <= s.index && 0 <= s.timer ==> 0 <= r.index < CoinStrip && 0 <= r.timer
    ensures r.x == s.x && r.drawing == s.drawing && r.hidden == s.hidden
  {
    var i := s.index + 1;
    var j := if i >= CoinStrip - 1 then 0 else i;
    if s.timer >= 2 then s.(timer := 0, index := j + 1)
    else s.(index := j)
  }

  /** One update() call of an entity of kind `k`; walls and ladders have none. */
  function Advance(k: Kind, s: EntityState, shape: PitShape): (r: EntityState)
    requires Inv(k, s, shape)
    ensures Inv(k, r, shape)
  {
    match k
    case Barrel => BarrelUpdate(s)
    case Ghost => CadencedUpdate(s, Speed(k), Period(k))
    case Rat => CadencedUpdate(s, Speed(k), Period(k))
    case Snake => CadencedUpdate(s, Speed(k), Period(k))
    case Pit => PitUpdate(s, shape)
    case Coin => CoinUpdate(s)
    case Wall => s
    case Ladder => s
  }

  /** `n` consecutive update() calls. */
  function Run(k: Kind, s: EntityState, shape: PitShape, n: nat): (r: EntityState)
    requires Inv(k, s, shape)
    ensures Inv(k, r, shape)
    decreases n
  {
    if n == 0 then s else Advance(k, Run(k, s, shape, n - 1), shape)
  }

  /** Running `a` updates and then `b` more is running `a + b`. */
  lemma {:induction false} RunAdd(k: Kind, s: EntityState, shape: PitShape, a: nat, b: nat)
    requires Inv(k, s, shape)
    ensures Run(k, Run(k, s, shape, a), shape, b) == Run(k, s, shape, a + b)
    decreases b
  {
    if b > 0 {
      RunAdd(k, s, shape, a, b - 1);
    }
  }

  /** A barrel moves exactly 10 to the left per update and swaps its frame on every one. */
  lemma {:induction false} BarrelRolls(s: EntityState, shape: PitShape, n: nat)
    requires Inv(Barrel, s, shape)
    ensures Run(Barrel, s, shape, n).x == s.x - 10.0 * n as real
    ensures Run(Barrel, s, shape, n).index == if n % 2 == 0 then s.index else Flip(s.index)
  {
    if n > 0 {
      BarrelRolls(s, shape, n - 1);
    }
  }

  /** From a cleared count, the first `n < Period(k)` updates of a ghost, rat or snake only
      count and move: the frame stays. */
  lemma {:induction false} CadenceHolds(k: Kind, s: EntityState, shape: PitShape, n: nat)
    requires k.Animal() && Inv(k, s, shape) && s.timer == 0 && n < Period(k)
    ensures Run(k, s, shape, n) == s.(x := s.x - n as real * Speed(k), timer := n)
  {
    if n > 0 {
      CadenceHolds(k, s, shape, n - 1);
    }
  }

  /** From a cleared count, update number Period(k) swaps the frame and clears the count:
      ghosts and rats swap every 3 updates, snakes every 5, and snakes never move. */
  lemma CadenceFlips(k: Kind, s: EntityState, shape: PitShape)
    requires k.Animal() && Inv(k, s, shape) && s.timer == 0
    ensures Run(k, s, shape, Period(k)) == s.(x := s.x - Period(k) as real * Speed(k), index := Flip(s.index))
    ensures k == Snake ==> Run(k, s, shape, Period(k)).x == s.x
  {
    CadenceHolds(k, s, shape, Period(k) - 1);
  }

  /** A coin steps through frames 0..6 cyclically, one per update, and its timer stays 0,
      so the timer-driven branch of Coin.update never runs. */
  lemma {:induction false} CoinCycles(s: EntityState, shape: PitShape, n: nat)
    requires Inv(Coin, s, shape) && s.timer == 0 && s.index < CoinStrip - 1
    ensures Run(Coin, s, shape, n).index == (s.index + n) % (CoinStrip - 1)
    ensures Run(Coin, s, shape, n).timer == 0
  {
    if n > 0 {
      CoinCycles(s, shape, n - 1);
    }
  }

  /** A hidden pit only counts for its first 39 updates. */
  lemma {:induction false} PitStaysHidden(s: EntityState, shape: PitShape, n: nat)
    requires Inv(Pit, s, shape) && !s.drawing && s.hidden + n < PitHiddenTicks
    ensures Run(Pit, s, shape, n) == s.(hidden := s.hidden + n, timer := s.timer + n)
  {
    if n > 0 {
      PitStaysHidden(s, shape, n - 1);
    }
  }

  /** A pit that has just hidden reappears after exactly 40 updates, at frame 8 with both
      timers cleared, where it was. */
  lemma PitReopens(s: EntityState, shape: PitShape)
    requires Inv(Pit, s, shape) && !s.drawing && s.hidden == 0
    ensures Run(Pit, s, shape, PitHiddenTicks) ==
              s.(drawing := true, hidden := 0, timer := 0, index := PitReopenFrame)
  {
    PitStaysHidden(s, shape, PitHiddenTicks - 1);
  }

  /** A visible pit with a cleared timer advances one frame every two updates, as long as it
      neither passes frame 7 on the way nor goes past frame 15. */
  lemma {:induction false} PitClimbs(s: EntityState, shape: PitShape, n: nat)
    requires Inv(Pit, s, shape) && s.drawing && s.timer == 0
    requires s.index + n < PitStrip
    requires s.index + n <= PitHideFrame || s.index > PitHideFrame
    ensures var r := Run(Pit, s, shape, 2 * n);
            r.drawing && r.timer == 0 && r.hidden == 0 && r.index == s.index + n
  {
    if n > 0 {
      PitClimbs(s, shape, n - 1);
      RunAdd(Pit, s, shape, 2 * (n - 1), 2);
    }
  }

  /** Same phase (frame, timer, visibility, hidden count), whatever the position. */
  predicate SamePhase(a: EntityState, b: EntityState)
  {
    a.index == b.index && a.timer == b.timer && a.drawing == b.drawing && a.hidden == b.hidden
  }

  /** The pit's full cycle: from frame 8 (where it reappears) it climbs to frame 15 in 14
      updates, wraps to frame 0, climbs to frame 7 by update 28, hides on update 29 and
      reappears at frame 8 on update 69. */
  lemma PitCycle(s: EntityState, shape: PitShape)
    requires Inv(Pit, s, shape) && s.drawing && s.timer == 0 && s.index == PitReopenFrame
    ensures Run(Pit, s, shape, 14).index == PitStrip - 1
    ensures var r := Run(Pit, s, shape, 28); r.drawing && r.index == PitHideFrame
    ensures var r := Run(Pit, s, shape, 29); !r.drawing && r.hidden == 0
    ensures SamePhase(Run(Pit, s, shape, 69), s)
  {
    PitClimbs(s, shape, 7);
    var top := Run(Pit, s, shape, 14);
    var wrapped := Run(Pit, top, shape, 2);
    assert wrapped.drawing && wrapped.timer == 0 && wrapped.index == 1;
    RunAdd(Pit, s, shape, 14, 2);
    PitClimbs(wrapped, shape, 6);
    RunAdd(Pit, s, shape, 16, 12);
    var seven := Run(Pit, s, shape, 28);
    var hid := Run(Pit, seven, shape, 1);
    RunAdd(Pit, s, shape, 28, 1);
    PitReopens(hid, shape);
    RunAdd(Pit, s, shape, 29, PitHiddenTicks);
  }

  /** One entity of the level. */
  class Entity {
    const kind: Kind
    const y: real
    const shape: PitShape
    /** The rectangle the entity was created with; level generation compares these. */
    const spawnRect: Rect
    var x: real
    var animationIndex: int
    var animationTimer: int
    var drawing: bool
    var disappearingTimer: int

    function State(): EntityState
      reads this
    {
      EntityState(x, animationIndex, animationTimer, drawing, disappearingTimer)
    }

    ghost predicate Valid()
      reads this
    {
      && Inv(kind, State(), shape)
      && 0 < spawnRect.w <= MaxSpawnWidth
      && 0 < spawnRect.h
    }

    /** The constructors of the eight entity classes: position, first frame, and for a pit
        its original position and width and the drawing flag. */
    constructor (kind: Kind, x0: int, y0: int, sprites: Sprites)
      requires sprites.Fits()
      ensures this.kind == kind && y == y0 as real
      ensures spawnRect == Rect(x0, y0, sprites.SizeOf(kind).w, sprites.SizeOf(kind).h)
      ensures shape == PitShape(x0 as real, sprites.pitWidths)
      ensures State() == Spawned(x0 as real)
      ensures Valid()
    {
      this.kind := kind;
      y := y0 as real;
      shape := PitShape(x0 as real, sprites.pitWidths);
      spawnRect := Rect(x0, y0, sprites.SizeOf(kind).w, sprites.SizeOf(kind).h);
      x := x0 as real;
      animationIndex := 0;
      animationTimer := 0;
      drawing := true;
      disappearingTimer := 0;
    }

    /** update() of Barrel, Ghost, Rat, Snake, Pit and Coin. */
    method Update()
      requires Valid() && kind.Animated()
      modifies this
      ensures Valid()
      ensures State() == Advance(kind, old(State()), shape)
    {
      match kind {
        case Barrel =>
          if animationIndex == 0 {
            animationIndex := 1;
          } else {
            animationIndex := 0;
          }
          x := x - 10.0;
        case Ghost =>
          UpdateCadenced(5.0, 3);
        case Rat =>
          UpdateCadenced(8.0, 3);
        case Snake =>
          UpdateCadenced(0.0, 5);
        case Pit =>
          animationTimer := animationTimer + 1;
          if !drawing {
            disappearingTimer := disappearingTimer + 1;
            if disappearingTimer >= PitHiddenTicks {
              drawing := true;
              disappearingTimer := 0;
              animationTimer := 0;
              animationIndex := PitReopenFrame;
            }
          } else {
            if animationIndex == PitHideFrame {
              drawing := false;
            }
            if animationIndex >= PitStrip - 1 {
              animationIndex := 0;
            }
            x := shape.originX + shape.widths[0] as real / 2.0 - shape.widths[animationIndex] as real / 2.0;
            // The frame is at most 14 here, so the source's second wrap test never fires.
            if animationTimer >= 2 {
              animationTimer := 0;
              animationIndex := animationIndex + 1;
            }
          }
        case Coin =>
          animationIndex := animationIndex + 1;
          if animationIndex >= CoinStrip - 1 {
            animationIndex := 0;
          }
          // The frame is at most 6 here, so the source's second wrap test never fires.
          if animationTimer >= 2 {
            animationTimer := 0;
            animationIndex := animationIndex + 1;
          }
      }
    }

    /** The shared body of Ghost, Rat and Snake update(). */
    method UpdateCadenced(speed: real, period: int)
      modifies this
      ensures State() == CadencedUpdate(old(State()), speed, period)
    {
      animationTimer := animationTimer + 1;
      x := x - speed;
      if animationTimer >= period {
        animationTimer := 0;
        if animationIndex == 0 {
          animationIndex := 1;
        } else {
          animationIndex := 0;
        }
      }
    }
  }
}
