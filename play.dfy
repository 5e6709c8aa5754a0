/** The Play screen (screen.py): one game session.  It owns the player and the level's
    entities, generates levels, and on every frame updates and collides the entities,
    advances the stage, steers and moves the player and checks its health; its key handler
    drives the player and the power-ups. */
module Sessions {
  import opened Geometry
  import opened Sequences
  import opened Input
  import opened Entities
  import opened Players
  import opened Progress
  import opened Levels

  /** Where the player starts, and where an extra life puts it back. */
  const StartX: real := 60.0
  const StartY: real := 400.0
  /** Reaching this x finishes the stage. */
  const StageEnd: real := 1060.0
  /** Score for finishing a stage. */
  const StageBonus := 100
  /** Coins a collected coin is worth before any multiplier. */
  const BaseCoinValue := 10
  /** Health at the start and after an extra life. */
  const FullHealth := 6
  /** How far a climbing player moves up per frame. */
  const ClimbStep: real := 17.0
  /** Power-up indices: 2x Coins, 4x Coins, Extra Life, Dead Zone. */
  const TwoXIndex := 0
  const FourXIndex := 1
  const ExtraLifeIndex := 2
  const DeadZoneIndex := 3

  // ---------------------------------------------------------------- collisions

  /** What touching an entity did this frame. */
  datatype Effect = Untouched | Collected | Damaged | Trapped

  /** A coin the player touches is collected; a barrel or animal damages; a pit traps only
      while it is drawn (after its update); walls, ladders and untouched entities do nothing. */
  function EffectOf(k: Kind, drawing: bool, hit: bool): (r: Effect)
    ensures r == Collected <==> k == Coin && hit
    ensures r == Damaged <==> k.Harmful() && hit
    ensures r == Trapped <==> k == Pit && drawing && hit
  {
    if !hit then Untouched
    else if k == Coin then Collected
    else if k.Harmful() then Damaged
    else if k == Pit && drawing then Trapped
    else Untouched
  }

  /** Collected coins and barrels or animals that hit are taken out of the level. */
  predicate Removed(e: Effect)
  {
    e == Collected || e == Damaged
  }

  /** Which entities stay in the level. */
  function Keeps(es: seq<Effect>): (r: seq<bool>)
    ensures |r| == |es|
  {
    seq(|es|, i requires 0 <= i < |es| => !Removed(es[i]))
  }

  /** One effect on health: a hit costs one point, a pit sets health to 1. */
  function HealthStep(h: int, e: Effect): int
  {
    match e
    case Damaged => h - 1
    case Trapped => 1
    case _ => h
  }

  /** Health after a frame's effects, in the level's order. */
  function HealthAfter(h: int, es: seq<Effect>): int
  {
    if es == [] then h else HealthStep(HealthAfter(h, es[..|es| - 1]), es[|es| - 1])
  }

  /** Effects compose frame by frame. */
  lemma {:induction false} HealthAfterAppend(h: int, a: seq<Effect>, b: seq<Effect>)
    ensures HealthAfter(h, a + b) == HealthAfter(HealthAfter(h, a), b)
  {
    if b == [] {
      assert a + b == a;
    } else {
      assert (a + b)[..|a + b| - 1] == a + b[..|b| - 1];
      HealthAfterAppend(h, a, b[..|b| - 1]);
    }
  }

  /** Without a pit, health drops by exactly one per damaging hit. */
  lemma {:induction false} HealthWithoutPits(h: int, es: seq<Effect>)
    requires Trapped !in es
    ensures HealthAfter(h, es) == h - Count(es, Damaged)
  {
    if es != [] {
      assert Trapped !in es[..|es| - 1];
      HealthWithoutPits(h, es[..|es| - 1]);
    }
  }

  /** After a pit traps the player, health is 1 less the hits that follow in the frame,
      whatever it was before. */
  lemma HealthAfterTrap(h: int, a: seq<Effect>, b: seq<Effect>)
    requires Trapped !in b
    ensures HealthAfter(h, a + [Trapped] + b) == 1 - Count(b, Damaged)
  {
    HealthAfterAppend(h, a + [Trapped], b);
    assert (a + [Trapped])[..|a|] == a;
    HealthWithoutPits(1, b);
  }

  /** The level keeps one entity per effect that does not remove it. */
  lemma {:induction false} KeepsCount(es: seq<Effect>)
    ensures Trues(Keeps(es)) == |es| - Count(es, Collected) - Count(es, Damaged)
  {
    if es != [] {
      var n := |es| - 1;
      assert Keeps(es)[..n] == Keeps(es[..n]);
      KeepsCount(es[..n]);
    }
  }

  /** Coins a frame's collisions earn, one coin value per collected coin. */
  function Gain(es: seq<Effect>, value: int): int
  {
    if es == [] then 0
    else Gain(es[..|es| - 1], value) + (if es[|es| - 1] == Collected then value else 0)
  }

  /** The coins earned are the coin value times the number of coins collected. */
  lemma {:induction false} GainIsProduct(es: seq<Effect>, value: int)
    ensures Gain(es, value) == value * Count(es, Collected)
  {
    if es != [] {
      var n := |es| - 1;
      GainIsProduct(es[..n], value);
      if es[n] == Collected {
        assert value * (Count(es[..n], Collected) + 1) == value * Count(es[..n], Collected) + value;
      }
    }
  }

  /** A frame's collisions remove exactly the collected coins and the damaging entities:
      of an entity list without repetitions, one entity per such effect is gone, and an
      entity is still there exactly when its effect does not remove it. */
  lemma Survivors(level: seq<Entity>, es: seq<Effect>, i: int)
    requires |es| == |level| && Distinct(level) && 0 <= i < |level|
    ensures |Filter(level, Keeps(es))| == |level| - Count(es, Collected) - Count(es, Damaged)
    ensures level[i] in Filter(level, Keeps(es)) <==> !Removed(es[i])
  {
    FilterLength(level, Keeps(es));
    KeepsCount(es);
    FilterExact(level, Keeps(es), i);
  }

  /** Which entities a Python `for` loop over the level visits when its body removes the
      entity it is visiting (the collision loop and the Dead Zone loop both do): the list
      closes up under the iterator, so the entity right after a removed one is skipped.
      `removes[i]` says whether visiting entity i removes it. */
  function VisitedAsWritten(removes: seq<bool>): (r: seq<bool>)
    ensures |r| == |removes|
    decreases |removes|
  {
    if removes == [] then []
    else if removes[0] && |removes| >= 2 then [true, false] + VisitedAsWritten(removes[2..])
    else [true] + VisitedAsWritten(removes[1..])
  }

  /** Every entity is visited. */
  predicate VisitsAll(visited: seq<bool>)
  {
    forall i :: 0 <= i < |visited| ==> visited[i]
  }

  /** No entity before the last one is removed. */
  predicate RemovesAtMostLast(removes: seq<bool>)
  {
    forall i :: 0 <= i < |removes| - 1 ==> !removes[i]
  }

  /** The loop as written visits every entity exactly when no entity but the last is
      removed: any removal before the end makes it skip one. */
  lemma {:induction false} VisitsAllUnlessRemoved(removes: seq<bool>)
    ensures VisitsAll(VisitedAsWritten(removes)) <==> RemovesAtMostLast(removes)
  {
    var r := VisitedAsWritten(removes);
    if removes == [] {
    } else if removes[0] && |removes| >= 2 {
      assert r == [true, false] + VisitedAsWritten(removes[2..]);
      assert !r[1];
    } else if |removes| == 1 {
      assert r == [true];
    } else {
      var t := removes[1..];
      VisitsAllUnlessRemoved(t);
      var rt := VisitedAsWritten(t);
      assert r == [true] + rt && !removes[0];
      if VisitsAll(r) {
        forall i | 0 <= i < |t|
          ensures rt[i]
        {
          assert rt[i] == r[i + 1];
        }
        forall i | 0 <= i < |removes| - 1
          ensures !removes[i]
        {
          if i > 0 {
            assert removes[i] == t[i - 1];
          }
        }
      } else {
        var k :| 0 <= k < |removes| && !r[k];
        assert k > 0 && !rt[k - 1];
        var j :| 0 <= j < |t| - 1 && t[j];
        assert removes[j + 1] == t[j];
      }
    }
  }

  /** Two coins next to each other in the level that the player touches in the same frame:
      the loop as written collects the first and never looks at the second, while the
      collision pass collects both. */
  lemma AdjacentCoinsAsWritten(hits: seq<bool>)
    requires hits == [true, true]
    ensures var effects := [EffectOf(Coin, true, hits[0]), EffectOf(Coin, true, hits[1])];
            && VisitedAsWritten(seq(2, i requires 0 <= i < 2 => Removed(effects[i]))) == [true, false]
            && Count(effects, Collected) == 2
  {
    var effects := [EffectOf(Coin, true, hits[0]), EffectOf(Coin, true, hits[1])];
    assert effects == [Collected, Collected];
    assert effects[..1] == [Collected];
    assert seq(2, i requires 0 <= i < 2 => Removed(effects[i])) == [true, true];
    assert VisitedAsWritten([true, true]) == [true, false];
  }

  /** Two animals next to each other when Dead Zone is activated: the loop as written
      removes the first and never looks at the second, which stays in the level, while
      WithoutAnimals removes every animal. */
  lemma AdjacentAnimalsAsWritten(kinds: seq<Kind>)
    requires |kinds| >= 2 && kinds[0].Animal() && kinds[1].Animal()
    ensures !VisitedAsWritten(seq(|kinds|, i requires 0 <= i < |kinds| => kinds[i].Animal()))[1]
  {
    var removes := seq(|kinds|, i requires 0 <= i < |kinds| => kinds[i].Animal());
    assert removes[0];
    assert VisitedAsWritten(removes) == [true, false] + VisitedAsWritten(removes[2..]);
  }

  // ---------------------------------------------------------------- health

  /** What the health test at the end of a frame decides. */
  datatype Outcome = Continue | Die | Revive

  /** The health test as intended: at exactly 1 health the player dies, unless an Extra
      Life is in use and has not been spent yet, in which case it is spent; once it is
      spent, the next time health is 1 ends the game.  Any other health, including 0 or
      less, lets the game go on. */
  function HealthOutcome(health: int, used: seq<int>, noMoreLives: bool): (o: Outcome)
    ensures o == Die <==> health == 1 && (ExtraLifeIndex !in used || noMoreLives)
    ensures o == Revive <==> health == 1 && ExtraLifeIndex in used && !noMoreLives
  {
    if health == 1 && (ExtraLifeIndex !in used || noMoreLives) then Die
    else if health == 1 then Revive
    else Continue
  }

  /** An Extra Life in use saves the player once: the first time health is 1 revives, and
      once the flag is set, health 1 ends the game. */
  lemma ExtraLifeSpentOnce(used: seq<int>)
    requires ExtraLifeIndex in used
    ensures HealthOutcome(1, used, false) == Revive
    ensures HealthOutcome(1, used, true) == Die
  {
  }

  /** The health test as written reads `noMoreLives` as a plain name, which nothing
      defines: once an Extra Life is in use, reaching 1 health raises a NameError instead of
      reviving the player. */
  datatype Checked = Decided(outcome: Outcome) | NameError

  function HealthOutcomeAsWritten(health: int, used: seq<int>): (r: Checked)
    ensures r == NameError <==> health == 1 && ExtraLifeIndex in used
    ensures r == Decided(Die) <==> health == 1 && ExtraLifeIndex !in used
  {
    if health == 1 && ExtraLifeIndex !in used then Decided(Die)
    else if health == 1 && ExtraLifeIndex in used then NameError
    else Decided(Continue)
  }

  /** The first time an Extra Life should revive the player, the health test as written
      fails, while the intended test revives. */
  lemma ExtraLifeAsWritten(used: seq<int>)
    requires ExtraLifeIndex in used
    ensures HealthOutcomeAsWritten(1, used) == NameError
    ensures HealthOutcome(1, used, false) == Revive
  {
  }

  /** The health test as written, with its plain name read as the session's flag: the die
      branch asks only whether an Extra Life is in use, so the flag set by the revival never
      lets the player die. */
  function HealthOutcomeFlagged(health: int, used: seq<int>, noMoreLives: bool): (o: Outcome)
    ensures o == Die <==> health == 1 && ExtraLifeIndex !in used
    ensures o == Revive <==> health == 1 && ExtraLifeIndex in used && !noMoreLives
  {
    if health == 1 && ExtraLifeIndex !in used then Die
    else if health == 1 && ExtraLifeIndex in used && !noMoreLives then Revive
    else Continue
  }

  /** With line 879's plain name read as the session's flag (`HealthOutcomeFlagged`), once an
      Extra Life is in use (and the list of used power-ups is never cleared within a session)
      the test never ends the game: after the revival, health 1 is neither death nor revival,
      and health goes on down past 0. */
  lemma NoDeathAfterRevivalAsWritten(used: seq<int>, health: int)
    requires ExtraLifeIndex in used
    ensures HealthOutcomeFlagged(health, used, true) == Continue
    ensures HealthOutcome(1, used, true) == Die
  {
  }

  /** Only a health of exactly 1 ends the game: two hits in one frame from 2 health leave the
      player at 0, where the game goes on for ever. */
  lemma HealthSkipsOne(used: seq<int>, noMoreLives: bool, a: seq<Effect>)
    requires Trapped !in a && Count(a, Damaged) == 2
    ensures HealthAfter(2, a) == 0 && HealthOutcome(HealthAfter(2, a), used, noMoreLives) == Continue
  {
    HealthWithoutPits(2, a);
  }

  // ---------------------------------------------------------------- power-ups

  /** The power-up state of a session: the selector, the indices used, the coin value and
      the four counters of owned power-ups. */
  datatype Powers = Powers(
    index: int, used: seq<int>, coinAppend: int,
    twoX: int, fourX: int, extraLives: int, deadZone: int)
  {
    /** The counter of power-up `i`. */
    function Owned(i: int): int
    {
      if i == TwoXIndex then twoX
      else if i == FourXIndex then fourX
      else if i == ExtraLifeIndex then extraLives
      else if i == DeadZoneIndex then deadZone
      else 0
    }

    /** Return activates the selected power-up: if it is not in use yet and one is owned. */
    predicate CanActivate()
    {
      0 <= index < 4 && index !in used && Owned(index) > 0
    }
  }

  /** Q: the previous power-up, from the first back to the last. */
  function PowerPrev(i: int): (r: int)
    ensures 0 <= i < 4 ==> 0 <= r < 4 && r == (i + 3) % 4
  {
    if i == 0 then 3 else i - 1
  }

  /** E: the next power-up, from the last round to the first. */
  function PowerNext(i: int): (r: int)
    ensures 0 <= i < 4 ==> 0 <= r < 4 && r == (i + 1) % 4
  {
    if i == 3 then 0 else i + 1
  }

  lemma PowerSelectorInverse(i: int)
    requires 0 <= i < 4
    ensures PowerPrev(PowerNext(i)) == i && PowerNext(PowerPrev(i)) == i
  {
  }

  /** Activating the selected power-up: it is recorded as used, its counter drops by one,
      2x Coins doubles and 4x Coins quadruples the value of a coin; otherwise nothing
      changes. */
  function Activate(p: Powers): (r: Powers)
    ensures !p.CanActivate() ==> r == p
    ensures p.CanActivate() ==>
      && r.used == p.used + [p.index] && r.index == p.index
      && r.Owned(p.index) == p.Owned(p.index) - 1
      && (forall j :: 0 <= j < 4 && j != p.index ==> r.Owned(j) == p.Owned(j))
      && r.coinAppend == (if p.index == TwoXIndex then 2 * p.coinAppend
                          else if p.index == FourXIndex then 4 * p.coinAppend
                          else p.coinAppend)
  {
    if !p.CanActivate() then p
    else
      var u := p.used + [p.index];
      if p.index == TwoXIndex then p.(used := u, coinAppend := p.coinAppend * 2, twoX := p.twoX - 1)
      else if p.index == FourXIndex then p.(used := u, coinAppend := p.coinAppend * 4, fourX := p.fourX - 1)
      else if p.index == ExtraLifeIndex then p.(used := u, extraLives := p.extraLives - 1)
      else p.(used := u, deadZone := p.deadZone - 1)
  }

  /** Pressing Return again on the same power-up does nothing: activation is idempotent. */
  lemma ActivateIdempotent(p: Powers)
    ensures Activate(Activate(p)) == Activate(p)
  {
  }

  /** The power-up state after one key press. */
  function PowerKey(p: Powers, e: Event): (r: Powers)
    ensures e == Press(QKey) || e == Press(EKey) ==> r.(index := p.index) == p
    ensures e == Press(QKey) ==> r.index == PowerPrev(p.index)
    ensures e == Press(EKey) ==> r.index == PowerNext(p.index)
    ensures e == Press(ReturnKey) ==> r == Activate(p)
    ensures e != Press(QKey) && e != Press(EKey) && e != Press(ReturnKey) ==> r == p
  {
    match e
    case Press(QKey) => p.(index := PowerPrev(p.index))
    case Press(EKey) => p.(index := PowerNext(p.index))
    case Press(ReturnKey) => Activate(p)
    case _ => p
  }

  /** The power-up state after a sequence of key presses. */
  function PowersAfter(p: Powers, es: seq<Event>): Powers
  {
    if es == [] then p else PowerKey(PowersAfter(p, es[..|es| - 1]), es[|es| - 1])
  }

  /** The state a session's power-ups can be in: the selector on one of the four, each
      index used at most once, and a coin worth 10, doubled if 2x Coins is in use and
      quadrupled if 4x Coins is. */
  ghost predicate PowersOk(p: Powers)
  {
    && 0 <= p.index < 4
    && Distinct(p.used)
    && (forall i :: 0 <= i < |p.used| ==> 0 <= p.used[i] < 4)
    && p.coinAppend == BaseCoinValue * (if TwoXIndex in p.used then 2 else 1) * (if FourXIndex in p.used then 4 else 1)
  }

  /** One key press keeps the power-ups in such a state. */
  lemma PowerKeyOk(p: Powers, e: Event)
    requires PowersOk(p)
    ensures PowersOk(PowerKey(p, e))
  {
    if e == Press(ReturnKey) && p.CanActivate() {
      var r := Activate(p);
      assert forall x :: x in r.used <==> x in p.used || x == p.index;
    }
  }

  /** Whatever keys are pressed in a session, the selector stays on one of the four
      power-ups, no power-up is used twice, and a coin is worth 10, 20, 40 or 80. */
  lemma {:induction false} PowersStayOk(p: Powers, es: seq<Event>)
    requires PowersOk(p)
    ensures PowersOk(PowersAfter(p, es))
    ensures PowersAfter(p, es).coinAppend in {10, 20, 40, 80}
  {
    if es != [] {
      PowersStayOk(p, es[..|es| - 1]);
      PowerKeyOk(PowersAfter(p, es[..|es| - 1]), es[|es| - 1]);
    }
  }

  /** The level without its ghosts, rats and snakes (Dead Zone). */
  function WithoutAnimals(level: seq<Entity>): (r: seq<Entity>)
    ensures forall e | e in r :: e in level && !e.kind.Animal()
  {
    var keep := seq(|level|, i requires 0 <= i < |level| => !level[i].kind.Animal());
    FilterMembers(level, keep);
    Filter(level, keep)
  }

  /** Dead Zone keeps a level free of repeated entities. */
  lemma WithoutAnimalsDistinct(level: seq<Entity>)
    requires Distinct(level)
    ensures Distinct(WithoutAnimals(level))
  {
    var keep := seq(|level|, i requires 0 <= i < |level| => !level[i].kind.Animal());
    FilterDistinct(level, keep);
  }

  /** Dead Zone removes every animal and keeps everything else. */
  lemma DeadZoneKeepsOthers(level: seq<Entity>, e: Entity)
    requires e in level && !e.kind.Animal()
    ensures e in WithoutAnimals(level)
  {
    var keep := seq(|level|, i requires 0 <= i < |level| => !level[i].kind.Animal());
    FilterMembers(level, keep);
  }

  // ---------------------------------------------------------------- player control

  /** The first entity of kind `k` in the level, or -1: the source's loops over the level
      stop at the first wall or ladder. */
  function FirstOf(level: seq<Entity>, k: Kind): (r: int)
    ensures -1 <= r < |level|
    ensures r >= 0 ==> level[r].kind == k
    ensures forall j :: 0 <= j < |level| && (r < 0 || j < r) ==> level[j].kind != k
  {
    if level == [] then -1
    else if level[0].kind == k then 0
    else
      var t := FirstOf(level[1..], k);
      if t < 0 then -1 else t + 1
  }

  /** Which ways a running player may go: a wall it touches blocks the side the wall is on. */
  datatype Freedom = Freedom(left: bool, right: bool)

  /** The first wall, if the player touches it, blocks the left when it is left of the
      player's x and the right when it is right of it. */
  function WallFreedom(wallX: real, px: real, touching: bool): (f: Freedom)
    ensures !touching ==> f == Freedom(true, true)
    ensures f.left || f.right
    ensures !f.left <==> touching && wallX < px
    ensures !f.right <==> touching && wallX > px
  {
    if touching && wallX < px then Freedom(false, true)
    else if touching && wallX > px then Freedom(true, false)
    else Freedom(true, true)
  }

  /** The per-state steering of a frame, before update(): a standing player stops and
      re-arms the double jump; a running player accelerates the way it faces unless that
      way is blocked; a climbing player moves up 17 and stands once at or above the ladder
      top; a jumping player is left alone. */
  function Steer(b: Body, facing: Facing, free: Freedom): (r: Body)
    ensures r.x == b.x && r.vx == b.vx && r.vy == b.vy && r.ay == b.ay
    ensures b.mode != Jumping ==> !r.doubled
    ensures b.mode == Stance ==> r.ax == 0.0 && r.mode == Stance && r.y == b.y
    ensures b.mode == Running ==> r.mode == Running && r.y == b.y
    ensures b.mode == Running ==> r.ax == (if facing == FacingRight then (if free.right then 15.0 else 0.0)
                                         else (if free.left then -15.0 else 0.0))
    ensures b.mode == Climbing ==> r.ax == b.ax && r.y == b.y - ClimbStep
    ensures b.mode == Climbing ==> (r.mode == Stance <==> r.y <= LadderTop) && (r.mode == Climbing <==> r.y > LadderTop)
    ensures b.mode == Jumping ==> r == b
  {
    match b.mode
    case Stance => b.(ax := 0.0, doubled := false)
    case Running =>
      var ax := if facing == FacingRight then (if free.right then 15.0 else 0.0)
                else (if free.left then -15.0 else 0.0);
      b.(doubled := false, ax := ax)
    case Climbing =>
      var y := b.y - ClimbStep;
      b.(doubled := false, y := y, mode := if y <= LadderTop then Stance else Climbing)
    case Jumping => b
  }

  /** A running player touching a wall on the side it faces does not move this frame. */
  lemma WallStopsRunner(b: Body, facing: Facing, wallX: real, idleHeight: real)
    requires b.mode == Running && b.x >= 0.0
    requires facing == FacingRight ==> wallX > b.x
    requires facing == FacingLeft ==> wallX < b.x
    ensures Physics(Steer(b, facing, WallFreedom(wallX, b.x, true)), idleHeight).x == b.x
  {
  }

  /** Key presses and releases acting on the player's body; `onLadder` says whether the
      player touches the level's first ladder. */
  function Control(b: Body, e: Event, onLadder: bool): (r: Body)
    ensures r.x == b.x && r.y == b.y && r.vy == b.vy
    ensures e == Press(RightKey) || e == Press(LeftKey) ==> r == b.(mode := Running)
    ensures e == Release(RightKey) || e == Release(LeftKey) ==> r == b.(mode := Stance)
    ensures e == Press(SpaceKey) && b.y < Floor && !(b.mode == Jumping && b.doubled) ==>
              r.mode == Jumping && r.ay == -25.0 && r.doubled == (b.mode == Jumping || b.doubled)
    ensures e == Press(SpaceKey) && b.mode == Jumping && b.doubled ==> r == b
    ensures r.mode == Climbing && b.mode != Climbing ==> onLadder
    ensures !e.Press? && !e.Release? ==> r == b
  {
    match e
    case Press(RightKey) => b.(mode := Running)
    case Press(LeftKey) => b.(mode := Running)
    case Release(RightKey) => b.(mode := Stance)
    case Release(LeftKey) => b.(mode := Stance)
    case Press(SpaceKey) =>
      if b.mode == Jumping then (if !b.doubled then JumpBody(b.(doubled := true)) else b)
      else JumpBody(b.(mode := Jumping))
    case Press(DownKey) => if onLadder then b.(ay := 10.0, ax := 0.0, vx := 0.0, mode := Climbing) else b
    case Press(UpKey) => if onLadder then b.(ay := -5.0, ax := 0.0, vx := 0.0, mode := Climbing) else b
    case _ => b
  }

  /** The facing after a key event: the arrow pressed. */
  function Turn(f: Facing, e: Event): (r: Facing)
    ensures r == FacingLeft <==> e == Press(LeftKey) || (f == FacingLeft && e != Press(RightKey))
  {
    match e
    case Press(RightKey) => FacingRight
    case Press(LeftKey) => FacingLeft
    case _ => f
  }

  /** Space jumps at most twice: a second Space in the air sets the doubled flag and jumps
      again without the horizontal boost, and a third does nothing. */
  lemma JumpAtMostTwice(b: Body)
    requires b.mode == Jumping
    ensures !b.doubled ==> var r := Control(b, Press(SpaceKey), false); r.doubled && r.ax == b.ax
    ensures b.doubled ==> Control(b, Press(SpaceKey), false) == b
  {
  }

  /** Space from the ground (above the floor, not doubled) jumps with the horizontal boost. */
  lemma FirstJumpBoosts(b: Body)
    requires b.mode != Jumping && !b.doubled && b.y < Floor
    ensures var r := Control(b, Press(SpaceKey), false);
            r.mode == Jumping && r.ay == -25.0 && r.ax == b.ax * 1.5 && !r.doubled
  {
  }

  /** Which ways a player at `px` may run in `level`, given whether the first wall touches
      it. */
  ghost function Blocking(level: seq<Entity>, px: real, wallContact: bool): Freedom
    reads level
  {
    var w := FirstOf(level, Wall);
    if w < 0 then Freedom(true, true) else WallFreedom(level[w].x, px, wallContact)
  }

  // ---------------------------------------------------------------- the session

  class Play {
    const save: SaveFile
    const sprites: Sprites
    const player: Player
    var level: seq<Entity>
    var counts: Counts
    var currentCoins: int
    var coinAppend: int
    var highScore: int
    var available2xCoins: int
    var available4xCoins: int
    var availableExtraLives: int
    var availableDeadZone: int
    var noMoreLives: bool
    var powerIndex: int
    var usedPowerups: seq<int>

    ghost predicate Valid()
      reads this, save, level
    {
      && save.Valid()
      && sprites.Fits()
      && Distinct(level)
      && Narrow(level)
      && (forall e | e in level :: e.Valid())
      && 0 <= powerIndex < 4
    }

    function PowerState(): Powers
      reads this
    {
      Powers(powerIndex, usedPowerups, coinAppend,
             available2xCoins, available4xCoins, availableExtraLives, availableDeadZone)
    }

    /** The effects the next frame's collision pass takes, given which entities will
        touch the player: they depend only on the entities' present states. */
    ghost function NextEffects(hits: seq<bool>): (r: seq<Effect>)
      requires Valid() && |hits| == |level|
      reads this, save, level
      ensures |r| == |level|
    {
      assert forall i :: 0 <= i < |level| ==> level[i] in level;
      PassEffects(level, States(level), hits)
    }

    /** What saving the session writes. */
    function Record(): Session
      reads this, player
    {
      Session(player.coins, available2xCoins, available4xCoins, availableDeadZone,
              availableExtraLives, highScore, player.score)
    }

    /** Play(): a player at (60, 400), the counters and power-ups read from the save file,
        a coin worth 10, and a first level generated. */
    constructor (save: SaveFile, sprites: Sprites, idleHeight: real)
      requires save.Valid() && sprites.Fits()
      ensures Valid() && this.save == save && this.sprites == sprites && fresh(player)
      ensures player.Snapshot() == Body(StartX, StartY, 0.0, 0.0, 0.0, 0.0, Stance, false)
      ensures player.health == FullHealth && player.score == 0 && player.coins == 0
      ensures currentCoins == save.doc[CoinsKey] && highScore == save.doc[HighScoreKey]
      ensures PowerState() == Powers(0, [], BaseCoinValue, save.doc[TwoXKey], save.doc[FourXKey],
                                     save.doc[ExtraLifeKey], save.doc[DeadZoneKey])
      ensures !noMoreLives
      ensures exists kind :: 1 <= kind < 4 && counts == Composition(kind, InitialCounts, false)
      ensures PlacedAs(level, Layout(counts), sprites) && Spaced(level, 0)
    {
      this.save := save;
      this.sprites := sprites;
      player := new Player(StartX, StartY, idleHeight);
      level := [];
      counts := InitialCounts;
      currentCoins := save.doc[CoinsKey];
      coinAppend := BaseCoinValue;
      highScore := save.doc[HighScoreKey];
      available2xCoins := save.doc[TwoXKey];
      available4xCoins := save.doc[FourXKey];
      availableExtraLives := save.doc[ExtraLifeKey];
      availableDeadZone := save.doc[DeadZoneKey];
      noMoreLives := false;
      powerIndex := 0;
      usedPowerups := [];
      new;
      var kind := CreateLevel();
      assert level[0..] == level;
    }

    // ------------------------------------------------------------ level generation

    /** createLevel: draw an archetype with randrange(1, 4), set the counters from the
        table (Dead Zone in use clears the animals), then run the nine placement loops,
        appending to the level. */
    method CreateLevel() returns (kind: int)
      requires Valid()
      modifies this`level, this`counts
      ensures Valid() && 1 <= kind < 4
      ensures counts == Composition(kind, old(counts), DeadZoneIndex in usedPowerups)
      ensures |level| >= |old(level)| && level[..|old(level)|] == old(level)
      ensures PlacedAs(level[|old(level)|..], Layout(counts), sprites)
      ensures Spaced(level, |old(level)|)
      ensures Spaced(old(level), 0) ==> Spaced(level, 0)
    {
      kind := RandRange(1, 4);
      counts := Archetype(kind, counts);
      if DeadZoneIndex in usedPowerups {
        counts := counts.(snakes := 0, rats := 0, ghosts := 0);
      }
      PlaceLayout();
    }

    /** The nine placement loops of createLevel, for the counters just set. */
    method PlaceLayout()
      requires Valid()
      modifies this`level
      ensures Valid()
      ensures |level| >= |old(level)| && level[..|old(level)|] == old(level)
      ensures PlacedAs(level[|old(level)|..], Layout(counts), sprites)
      ensures Spaced(level, |old(level)|)
      ensures Spaced(old(level), 0) ==> Spaced(level, 0)
    {
      ghost var start := level;
      assert level[..|start|] == start && level[|start|..] == [];
      var c := counts;
      Place3(start, [], PitSlot, c.pits, LadderSlot, c.ladders, BarrelSlot, c.barrels);
      ghost var slots := [] + Repeat(PitSlot, c.pits) + Repeat(LadderSlot, c.ladders) + Repeat(BarrelSlot, c.barrels);
      Place3(start, slots, WallSlot, c.walls, CoinSlot, c.coins, UndergroundCoinSlot, c.undergroundCoins);
      slots := slots + Repeat(WallSlot, c.walls) + Repeat(CoinSlot, c.coins) + Repeat(UndergroundCoinSlot, c.undergroundCoins);
      Place3(start, slots, GhostSlot, c.ghosts, RatSlot, c.rats, SnakeSlot, c.snakes);
      slots := slots + Repeat(GhostSlot, c.ghosts) + Repeat(RatSlot, c.rats) + Repeat(SnakeSlot, c.snakes);
      assert counts == c;
      assert [] + Repeat(PitSlot, c.pits) == Repeat(PitSlot, c.pits);
      assert slots == Layout(c);
      ghost var placed := level[|start|..];
      assert PlacedAs(placed, slots, sprites);
      assert PlacedAs(placed, Layout(counts), sprites);
      if Spaced(start, 0) {
        SpacedJoin(start, level, 0);
      }
    }

    /** Three of createLevel's placement loops in a row. */
    method Place3(ghost start: seq<Entity>, ghost slots: seq<Slot>,
                  a: Slot, na: int, b: Slot, nb: int, c: Slot, nc: int)
      requires Valid() && a.Roomy() && b.Roomy() && c.Roomy()
      requires |level| >= |start| && level[..|start|] == start
      requires PlacedAs(level[|start|..], slots, sprites) && Spaced(level, |start|)
      modifies this`level
      ensures Valid() && |level| >= |start| && level[..|start|] == start
      ensures PlacedAs(level[|start|..], slots + Repeat(a, na) + Repeat(b, nb) + Repeat(c, nc), sprites)
      ensures Spaced(level, |start|)
    {
      Place(start, slots, a, na);
      Place(start, slots + Repeat(a, na), b, nb);
      Place(start, slots + Repeat(a, na) + Repeat(b, nb), c, nc);
    }

    /** One of createLevel's placement loops, appending `n` entities of slot `s`; the
        ghost parameters record the level before generation and the slots placed so far. */
    method Place(ghost start: seq<Entity>, ghost slots: seq<Slot>, s: Slot, n: int)
      requires Valid() && s.Roomy()
      requires |level| >= |start| && level[..|start|] == start
      requires PlacedAs(level[|start|..], slots, sprites) && Spaced(level, |start|)
      modifies this`level
      ensures Valid() && |level| >= |start| && level[..|start|] == start
      ensures PlacedAs(level[|start|..], slots + Repeat(s, n), sprites) && Spaced(level, |start|)
    {
      var before := level;
      level := PlaceRun(level, s, n, sprites);
      PlaceJoin(start, before, level, slots, Repeat(s, n), sprites);
    }

    // ------------------------------------------------------------ one frame

    /** Play.draw, without the drawing: collisions, the stage advance, steering, update()
        and the health test, in the source's order.  `hits[i]` says whether entity i,
        after its update, touches the player; `wallContact` whether the first wall does,
        after the collisions.  The Lose action carries the final figures. */
    method Frame(hits: seq<bool>, wallContact: bool)
        returns (a: Action, ghost effects: seq<Effect>, ghost advanced: bool, ghost kind: int)
      requires Valid() && |hits| == |level|
      modifies this`level, this`counts, this`noMoreLives, this`availableExtraLives
      modifies level, player, save
      ensures Valid()
      ensures Framed(old(level), hits, wallContact, old(save.doc), a, effects, advanced, kind)
    {
      effects, advanced, kind := CollideAndAdvance(hits);
      ghost var free := Blocking(level, player.x, wallContact);
      a := MovePlayer(wallContact);
      assert free == Blocking(level, if advanced then 0.0 else old(player.x), wallContact);
    }

    /** The whole new state of a frame, from the level `before` it and the save document
        `doc` it started with: every entity updated and its effect taken, the stage end,
        and the player's part, from where the stage end left it and with the health the
        collisions left. */
    twostate predicate Framed(before: seq<Entity>, hits: seq<bool>, wallContact: bool, doc: map<string, int>,
                              a: Action, effects: seq<Effect>, advanced: bool, kind: int)
      reads this, player, save, before, level
    {
      var x0 := if advanced then 0.0 else old(player.x);
      // the collisions
      && Collided(before, old(States(before)), hits, effects)
      && player.coins == old(player.coins) + coinAppend * Count(effects, Collected)
      // the end of the stage
      && advanced == (old(player.x) >= StageEnd)
      && player.score == old(player.score) + (if advanced then StageBonus else 0)
      && (!advanced ==> level == Filter(before, Keeps(effects)) && counts == old(counts))
      && (advanced ==> && 1 <= kind < 4
                       && counts == Composition(kind, old(counts), DeadZoneIndex in usedPowerups)
                       && PlacedAs(level, Layout(counts), sprites) && Spaced(level, 0))
      // the player's part
      && PlayerMoved(old(player.Snapshot()).(x := x0), old(player.orientation), Blocking(level, x0, wallContact),
                     HealthAfter(old(player.health), effects), old(noMoreLives), old(availableExtraLives), doc, a)
      && player.x >= 0.0
    }

    /** The player's part of a frame, given what it started from: body `b`, `facing`, the
        blocking `free`, and what the health test starts from.  The body is steered and
        updated, and then the health test decides. */
    ghost predicate PlayerMoved(b: Body, facing: Facing, free: Freedom, health: int, spent: bool, lives: int,
                                doc: map<string, int>, a: Action)
      reads this, player, save
    {
      var moved := Physics(Steer(b, facing, free), player.idleHeight);
      && player.Snapshot() == moved.(x := player.x)
      && player.orientation == facing
      && HealthChecked(health, spent, lives, doc, moved.x, a)
    }

    /** The health test at the end of a frame, given the `health`, the extra-life flag
        `spent`, the `lives` extra lives owned, the save document `doc` and the player's
        position `x` before it.  Dying saves the session and asks for the Lose screen with
        the final figures; a revival puts the player back at x = 60 with full health, sets
        the flag and spends an extra life if one is owned; otherwise nothing changes. */
    ghost predicate HealthChecked(health: int, spent: bool, lives: int, doc: map<string, int>, x: real, a: Action)
      reads this, player, save
    {
      var o := HealthOutcome(health, usedPowerups, spent);
      && CoinsKey in doc
      && (a.ToLose? <==> o == Die)
      && (o == Die ==>
            && a == ToLose(player.score, highScore, doc[CoinsKey] + player.coins, player.coins)
            && save.doc == Saved(doc, Record())
            && player.x == x && player.health == health && noMoreLives == spent && availableExtraLives == lives)
      && (o == Revive ==>
            && a == Stay && save.doc == doc
            && player.x == StartX && player.health == FullHealth && noMoreLives
            && availableExtraLives == (if lives > 0 then lives - 1 else lives))
      && (o == Continue ==>
            && a == Stay && save.doc == doc
            && player.x == x && player.health == health && noMoreLives == spent && availableExtraLives == lives)
    }

    /** The part of a frame before the player moves: the collisions, then the end of the
        stage. */
    method CollideAndAdvance(hits: seq<bool>) returns (effects: seq<Effect>, advanced: bool, kind: int)
      requires Valid() && |hits| == |level|
      modifies this`level, this`counts, level, player`coins, player`health, player`x, player`score
      ensures Valid()
      ensures Collided(old(level), old(States(level)), hits, effects)
      ensures player.coins == old(player.coins) + coinAppend * Count(effects, Collected)
      ensures player.health == HealthAfter(old(player.health), effects)
      ensures advanced == (old(player.x) >= StageEnd)
      ensures player.Snapshot() == old(player.Snapshot()).(x := if advanced then 0.0 else old(player.x))
      ensures player.orientation == old(player.orientation)
      ensures player.score == old(player.score) + (if advanced then StageBonus else 0)
      ensures !advanced ==> level == Filter(old(level), Keeps(effects)) && counts == old(counts)
      ensures advanced ==> && 1 <= kind < 4
                           && counts == Composition(kind, old(counts), DeadZoneIndex in usedPowerups)
                           && PlacedAs(level, Layout(counts), sprites) && Spaced(level, 0)
    {
      ghost var before := States(level);
      effects := CollisionPass(hits);
      assert Collided(old(level), before, hits, effects);
      advanced, kind := AdvanceStage();
    }

    /** The player's part of a frame: steering, update() and the health test. */
    method MovePlayer(wallContact: bool) returns (a: Action)
      requires Valid()
      modifies save, player, this`noMoreLives, this`availableExtraLives
      ensures Valid()
      ensures PlayerMoved(old(player.Snapshot()), old(player.orientation), old(Blocking(level, player.x, wallContact)),
                          old(player.health), old(noMoreLives), old(availableExtraLives), old(save.doc), a)
      ensures player.score == old(player.score) && player.coins == old(player.coins)
      ensures player.x >= 0.0
      ensures unchanged(level)
    {
      ghost var free := Blocking(level, player.x, wallContact);
      SteerPlayer(wallContact);
      player.Update();
      ghost var moved := player.Snapshot();
      a := CheckHealth();
      assert player.Snapshot() == moved.(x := player.x);
    }

    /** The loop over the level at the start of a frame: every entity is updated and then,
        if it touches the player, a coin adds the coin value to the player's coins and is
        removed, a barrel or animal costs one health and is removed, and a drawn pit sets
        health to 1 and stays. */
    method CollisionPass(hits: seq<bool>) returns (effects: seq<Effect>)
      requires Valid() && |hits| == |level|
      modifies this`level, level, player`coins, player`health
      ensures Valid()
      ensures |effects| == |old(level)|
      ensures forall i :: 0 <= i < |old(level)| ==> Stepped(old(level)[i], old(level[i].State()))
      ensures forall i :: 0 <= i < |effects| ==>
                effects[i] == EffectOf(old(level)[i].kind, old(level)[i].drawing, hits[i])
      ensures level == Filter(old(level), Keeps(effects))
      ensures player.coins == old(player.coins) + coinAppend * Count(effects, Collected)
      ensures player.health == HealthAfter(old(player.health), effects)
      ensures player.Snapshot() == old(player.Snapshot()) && player.score == old(player.score)
      ensures player.orientation == old(player.orientation) && counts == old(counts)
    {
      ghost var all := level;
      effects := TouchAll(level, hits, player, coinAppend);
      GainIsProduct(effects, coinAppend);
      FilterDistinct(all, Keeps(effects));
      FilterMembers(all, Keeps(effects));
      level := Filter(level, Keeps(effects));
    }

    /** The end of the stage: at x >= 1060 the player goes back to x = 0, a new level
        replaces the old one and the score rises by 100. */
    method AdvanceStage() returns (advanced: bool, kind: int)
      requires Valid()
      modifies this`level, this`counts, player`x, player`score
      ensures Valid()
      ensures advanced == (old(player.x) >= StageEnd)
      ensures advanced ==> && player.x == 0.0 && player.score == old(player.score) + StageBonus
                           && 1 <= kind < 4
                           && counts == Composition(kind, old(counts), DeadZoneIndex in usedPowerups)
                           && PlacedAs(level, Layout(counts), sprites) && Spaced(level, 0)
      ensures player.Snapshot() == old(player.Snapshot()).(x := if advanced then 0.0 else old(player.x))
      ensures player.score == old(player.score) + (if advanced then StageBonus else 0)
      ensures player.coins == old(player.coins) && player.health == old(player.health)
      ensures player.orientation == old(player.orientation)
      ensures !advanced ==> && player.x == old(player.x) && player.score == old(player.score)
                            && level == old(level) && counts == old(counts)
    {
      advanced := player.x >= StageEnd;
      kind := 0;
      if advanced {
        player.x := 0.0;
        level := [];
        kind := CreateLevel();
        assert level[0..] == level;
        player.score := player.score + StageBonus;
      }
    }

    /** The state-dependent part of Play.draw before update(); `wallContact` says whether
        the level's first wall touches the player. */
    method SteerPlayer(wallContact: bool)
      requires Valid()
      modifies player
      ensures player.Snapshot() == Steer(old(player.Snapshot()), player.orientation, Blocking(level, player.x, wallContact))
      ensures player.orientation == old(player.orientation) && player.health == old(player.health)
      ensures player.score == old(player.score) && player.coins == old(player.coins)
    {
      match player.currentState {
        case Stance =>
          player.Stop();
          player.doubled := false;
        case Running =>
          player.doubled := false;
          var free := FindFreedom(wallContact);
          if player.orientation == FacingRight {
            if free.right {
              player.Right();
            } else {
              player.Stop();
            }
          } else {
            if free.left {
              player.Left();
            } else {
              player.Stop();
            }
          }
        case Climbing =>
          player.doubled := false;
          player.y := player.y - ClimbStep;
          if player.y <= LadderTop {
            player.currentState := Stance;
          }
        case Jumping =>
      }
    }

    /** The source's loop for the first wall and the blocking it causes. */
    method FindFreedom(wallContact: bool) returns (free: Freedom)
      ensures free == Blocking(level, player.x, wallContact)
    {
      var w := FindFirst(Wall);
      if w < 0 {
        free := Freedom(true, true);
      } else {
        free := WallFreedom(level[w].x, player.x, wallContact);
      }
    }

    /** The index of the first entity of kind `k`, or -1. */
    method FindFirst(k: Kind) returns (w: int)
      ensures w == FirstOf(level, k)
    {
      w := -1;
      var i := 0;
      while i < |level| && w < 0
        invariant 0 <= i <= |level|
        invariant w == -1 || (0 <= w < i && level[w].kind == k)
        invariant forall j :: 0 <= j < i && (w < 0 || j < w) ==> level[j].kind != k
      {
        if level[i].kind == k {
          w := i;
        }
        i := i + 1;
      }
    }

    /** The health test at the end of Play.draw.  Dying saves the session (the same
        writes as ScreenManager.saveAll: coins added to the stored total, the counters, the
        high score if beaten) and asks for the Lose screen with the score, the high score
        the session started with, the new coin total and the coins earned.  An unspent
        Extra Life in use puts the player back at x = 60 with full health; its counter
        drops if it is still positive. */
    method CheckHealth() returns (a: Action)
      requires Valid()
      modifies save, player`x, player`health, this`noMoreLives, this`availableExtraLives
      ensures Valid()
      ensures HealthChecked(old(player.health), old(noMoreLives), old(availableExtraLives), old(save.doc), old(player.x), a)
      ensures a.ToLose? ==> a.totalCoins == save.doc[CoinsKey]
      ensures player.Snapshot() == old(player.Snapshot()).(x := player.x)
      ensures player.orientation == old(player.orientation)
      ensures player.score == old(player.score) && player.coins == old(player.coins)
    {
      a := Stay;
      if player.health == 1 && (ExtraLifeIndex !in usedPowerups || noMoreLives) {
        var stored := save.Read(CoinsKey);
        var totalCoins := stored + player.coins;
        a := ToLose(player.score, highScore, totalCoins, player.coins);
        save.Save(Record());
      } else if player.health == 1 {
        player.x := StartX;
        player.health := FullHealth;
        noMoreLives := true;
        if availableExtraLives > 0 {
          availableExtraLives := availableExtraLives - 1;
        }
      }
    }

    // ------------------------------------------------------------ keys

    /** Play.keyDownEvent.  The arrows set the running state and the facing, releasing one
        stands; Space jumps or double-jumps; Down and Up start climbing when the first
        ladder touches the player (`ladderContact`); Q and E move the power-up selector;
        Return activates the selected power-up, Dead Zone also clearing the level of
        animals. */
    method KeyDown(e: Event, ladderContact: bool)
      requires Valid()
      modifies this`powerIndex, this`usedPowerups, this`coinAppend, this`available2xCoins
      modifies this`available4xCoins, this`availableExtraLives, this`availableDeadZone, this`level
      modifies player
      ensures Valid()
      ensures PowerState() == PowerKey(old(PowerState()), e)
      ensures level == if e == Press(ReturnKey) && old(PowerState()).CanActivate() && old(powerIndex) == DeadZoneIndex
                       then WithoutAnimals(old(level)) else old(level)
      ensures player.Snapshot() == Control(old(player.Snapshot()), e, FirstOf(old(level), Ladder) >= 0 && ladderContact)
      ensures player.orientation == Turn(old(player.orientation), e)
      ensures player.health == old(player.health) && player.score == old(player.score)
      ensures player.coins == old(player.coins)
    {
      if e == Press(QKey) || e == Press(EKey) || e == Press(ReturnKey) {
        PowerKeyDown(e);
      } else {
        PlayerKeyDown(e, ladderContact);
      }
    }

    /** The arrows, Space, Down and Up: the player's state, facing and motion. */
    method PlayerKeyDown(e: Event, ladderContact: bool)
      requires Valid()
      modifies player
      ensures player.Snapshot() == Control(old(player.Snapshot()), e, FirstOf(level, Ladder) >= 0 && ladderContact)
      ensures player.orientation == Turn(old(player.orientation), e)
      ensures player.health == old(player.health) && player.score == old(player.score)
      ensures player.coins == old(player.coins)
    {
      match e {
        case Press(RightKey) =>
          player.currentState := Running;
          player.orientation := FacingRight;
        case Press(LeftKey) =>
          player.currentState := Running;
          player.orientation := FacingLeft;
        case Release(RightKey) =>
          player.currentState := Stance;
        case Release(LeftKey) =>
          player.currentState := Stance;
        case Press(SpaceKey) =>
          if player.currentState == Jumping {
            if !player.doubled {
              player.doubled := true;
              player.Jump();
            }
          } else {
            player.currentState := Jumping;
            player.Jump();
          }
        case Press(DownKey) =>
          var l := FindFirst(Ladder);
          if l >= 0 && ladderContact {
            player.Fall();
          }
        case Press(UpKey) =>
          var l := FindFirst(Ladder);
          if l >= 0 && ladderContact {
            player.Rise();
          }
        case _ =>
      }
    }

    /** Q, E and Return: the power-up selector and activation. */
    method PowerKeyDown(e: Event)
      requires Valid() && (e == Press(QKey) || e == Press(EKey) || e == Press(ReturnKey))
      modifies this`powerIndex, this`usedPowerups, this`coinAppend, this`available2xCoins
      modifies this`available4xCoins, this`availableExtraLives, this`availableDeadZone, this`level
      ensures Valid()
      ensures PowerState() == PowerKey(old(PowerState()), e)
      ensures level == if e == Press(ReturnKey) && old(PowerState()).CanActivate() && old(powerIndex) == DeadZoneIndex
                       then WithoutAnimals(old(level)) else old(level)
    {
      if e == Press(QKey) {
        powerIndex := if powerIndex == 0 then 3 else powerIndex - 1;
      } else if e == Press(EKey) {
        powerIndex := if powerIndex == 3 then 0 else powerIndex + 1;
      } else {
        ActivatePower();
      }
    }

    /** The Return branch of Play.keyDownEvent. */
    method ActivatePower()
      requires Valid()
      modifies this`usedPowerups, this`coinAppend, this`available2xCoins, this`available4xCoins
      modifies this`availableExtraLives, this`availableDeadZone, this`level
      ensures Valid()
      ensures PowerState() == Activate(old(PowerState()))
      ensures level == if old(PowerState()).CanActivate() && powerIndex == DeadZoneIndex
                       then WithoutAnimals(old(level)) else old(level)
    {
      if powerIndex !in usedPowerups {
        if powerIndex == TwoXIndex && available2xCoins > 0 {
          usedPowerups := usedPowerups + [powerIndex];
          coinAppend := coinAppend * 2;
          available2xCoins := available2xCoins - 1;
        } else if powerIndex == FourXIndex && available4xCoins > 0 {
          usedPowerups := usedPowerups + [powerIndex];
          coinAppend := coinAppend * 4;
          available4xCoins := available4xCoins - 1;
        } else if powerIndex == ExtraLifeIndex && availableExtraLives > 0 {
          usedPowerups := usedPowerups + [powerIndex];
          availableExtraLives := availableExtraLives - 1;
        } else if powerIndex == DeadZoneIndex && availableDeadZone > 0 {
          usedPowerups := usedPowerups + [powerIndex];
          availableDeadZone := availableDeadZone - 1;
          WithoutAnimalsDistinct(level);
          level := WithoutAnimals(level);
        }
      }
    }
  }

  /** `e` has made exactly one update() call since it was in state `before`. */
  ghost predicate Stepped(e: Entity, before: EntityState)
    reads e
  {
    Inv(e.kind, before, e.shape) && e.State() == Advance(e.kind, before, e.shape)
  }

  /** The states of a level's entities. */
  ghost function States(level: seq<Entity>): (r: seq<EntityState>)
    reads level
    ensures |r| == |level| && forall i :: 0 <= i < |level| ==> r[i] == level[i].State()
  {
    seq(|level|, i requires 0 <= i < |level| reads level => level[i].State())
  }

  /** The collisions of a frame over `level`, whose entities were in `before`: each entity
      has been updated once, and its effect is the one its kind, visibility and contact give. */
  ghost predicate Collided(level: seq<Entity>, before: seq<EntityState>, hits: seq<bool>, effects: seq<Effect>)
    reads level
  {
    && |before| == |level| && |hits| == |level| && |effects| == |level|
    && (forall i :: 0 <= i < |level| ==> Stepped(level[i], before[i]))
    && (forall i :: 0 <= i < |level| ==> effects[i] == EffectOf(level[i].kind, level[i].drawing, hits[i]))
  }

  /** The effects a collision pass over `level` takes when its entities start from the
      states `before`: each is the effect of the entity's kind, of whether it is drawn after
      one update, and of its contact.  It depends on nothing the pass changes. */
  ghost function PassEffects(level: seq<Entity>, before: seq<EntityState>, hits: seq<bool>): (r: seq<Effect>)
    requires |before| == |level| && |hits| == |level|
    requires forall i :: 0 <= i < |level| ==> Inv(level[i].kind, before[i], level[i].shape)
    ensures |r| == |level|
    ensures forall i :: 0 <= i < |level| ==>
              r[i] == EffectOf(level[i].kind, Advance(level[i].kind, before[i], level[i].shape).drawing, hits[i])
  {
    seq(|level|, i requires 0 <= i < |level| =>
      EffectOf(level[i].kind, Advance(level[i].kind, before[i], level[i].shape).drawing, hits[i]))
  }

  /** A collision pass's effects are those `PassEffects` computes from the states before it. */
  lemma CollidedEffects(level: seq<Entity>, before: seq<EntityState>, hits: seq<bool>, effects: seq<Effect>)
    requires Collided(level, before, hits, effects)
    ensures effects == PassEffects(level, before, hits)
  {
    forall i | 0 <= i < |level|
      ensures effects[i] == PassEffects(level, before, hits)[i]
    {
      assert Stepped(level[i], before[i]);
    }
  }

  /** The loop over the level at the start of a frame, without the removals: each entity
      in turn is updated and its effect on `player` applied. */
  method TouchAll(level: seq<Entity>, hits: seq<bool>, player: Player, coinValue: int)
    returns (effects: seq<Effect>)
    requires Distinct(level) && |hits| == |level|
    requires forall e | e in level :: e.Valid()
    modifies level, player`coins, player`health
    ensures forall e | e in level :: e.Valid()
    ensures |effects| == |level|
    ensures forall i :: 0 <= i < |level| ==> Stepped(level[i], old(level[i].State()))
    ensures forall i :: 0 <= i < |effects| ==> effects[i] == EffectOf(level[i].kind, level[i].drawing, hits[i])
    ensures player.coins == old(player.coins) + Gain(effects, coinValue)
    ensures player.health == HealthAfter(old(player.health), effects)
  {
    ghost var before := seq(|level|, j requires 0 <= j < |level| reads level => level[j].State());
    assert forall j :: 0 <= j < |level| ==> before[j] == old(level[j].State());
    effects := [];
    var i := 0;
    while i < |level|
      invariant 0 <= i <= |level| && |effects| == i
      invariant TouchedUpTo(level, before, hits, effects, i)
      invariant player.coins == old(player.coins) + Gain(effects, coinValue)
      invariant player.health == HealthAfter(old(player.health), effects)
    {
      effects := TouchNext(level, before, hits, effects, i, player, coinValue);
      i := i + 1;
    }
  }

  /** The first `i` entities of `level` have been updated once from `before` and touched
      with effects `effects`; the rest are still in their `before` state. */
  ghost predicate TouchedUpTo(level: seq<Entity>, before: seq<EntityState>, hits: seq<bool>,
                              effects: seq<Effect>, i: nat)
    reads level
  {
    && |before| == |hits| == |level| && i <= |level| && |effects| == i
    && (forall j :: 0 <= j < i ==>
          && level[j].Valid() && Stepped(level[j], before[j])
          && effects[j] == EffectOf(level[j].kind, level[j].drawing, hits[j]))
    && (forall j :: i <= j < |level| ==> level[j].Valid() && level[j].State() == before[j])
  }

  /** One turn of TouchAll's loop. */
  method TouchNext(level: seq<Entity>, ghost before: seq<EntityState>, hits: seq<bool>,
                   effects: seq<Effect>, i: nat, player: Player, coinValue: int)
    returns (effects': seq<Effect>)
    requires Distinct(level) && i < |level|
    requires TouchedUpTo(level, before, hits, effects, i)
    modifies level[i], player`coins, player`health
    ensures TouchedUpTo(level, before, hits, effects', i + 1)
    ensures effects' == effects + [effects'[i]]
    ensures player.coins == old(player.coins) + (if effects'[i] == Collected then coinValue else 0)
    ensures player.health == HealthStep(old(player.health), effects'[i])
  {
    var eff := Touch(level[i], hits[i], player, coinValue);
    effects' := effects + [eff];
  }

  /** One entity of the loop: update it, then apply the effect of touching it. */
  method Touch(e: Entity, hit: bool, player: Player, coinValue: int) returns (eff: Effect)
    requires e.Valid()
    modifies e, player`coins, player`health
    ensures e.Valid() && e.State() == Advance(e.kind, old(e.State()), e.shape)
    ensures eff == EffectOf(e.kind, e.drawing, hit)
    ensures player.coins == old(player.coins) + (if eff == Collected then coinValue else 0)
    ensures player.health == HealthStep(old(player.health), eff)
  {
    eff := Untouched;
    if e.kind == Coin {
      e.Update();
      if hit {
        player.coins := player.coins + coinValue;
        eff := Collected;
      }
    } else if e.kind.Harmful() {
      e.Update();
      if hit {
        player.health := player.health - 1;
        eff := Damaged;
      }
    } else if e.kind == Pit {
      e.Update();
      if e.drawing && hit {
        player.health := 1;
        eff := Trapped;
      }
    }
  }

  /** Two placement runs laid end to end are placed as their slots laid end to end. */
  lemma PlacedAsAppend(a: seq<Entity>, b: seq<Entity>, sa: seq<Slot>, sb: seq<Slot>, sprites: Sprites)
    requires PlacedAs(a, sa, sprites) && PlacedAs(b, sb, sprites)
    ensures PlacedAs(a + b, sa + sb, sprites)
  {
    forall i | 0 <= i < |a + b|
      ensures PlacedAt((a + b)[i], (sa + sb)[i], sprites)
    {
      if i >= |a| {
        assert (a + b)[i] == b[i - |a|] && (sa + sb)[i] == sb[i - |a|];
      }
    }
  }

  /** A placement loop run on a level generated so far extends what has been generated. */
  lemma PlaceJoin(start: seq<Entity>, before: seq<Entity>, after: seq<Entity>,
                  slots: seq<Slot>, run: seq<Slot>, sprites: Sprites)
    requires |before| >= |start| && before[..|start|] == start
    requires PlacedAs(before[|start|..], slots, sprites) && Spaced(before, |start|)
    requires forall e | e in before :: e.Valid()
    requires |after| >= |before| && after[..|before|] == before
    requires PlacedAs(after[|before|..], run, sprites) && Spaced(after, |before|)
    ensures |after| >= |start| && after[..|start|] == start
    ensures PlacedAs(after[|start|..], slots + run, sprites) && Spaced(after, |start|)
    ensures forall e | e in after :: e.Valid()
  {
    assert after[|start|..] == before[|start|..] + after[|before|..];
    PlacedAsAppend(before[|start|..], after[|before|..], slots, run, sprites);
    SpacedJoin(before, after, |start|);
    assert after == before + after[|before|..];
    AllValidAppend(before, after[|before|..], run, sprites);
  }

  /** Entities placed by a placement loop are in their first, valid state, so appending
      them to a level of valid entities gives a level of valid entities. */
  lemma AllValidAppend(a: seq<Entity>, b: seq<Entity>, slots: seq<Slot>, sprites: Sprites)
    requires forall e | e in a :: e.Valid()
    requires PlacedAs(b, slots, sprites)
    ensures forall e | e in a + b :: e.Valid()
  {
    forall e | e in a + b
      ensures e.Valid()
    {
      if e !in a {
        var i :| 0 <= i < |b| && b[i] == e;
        assert PlacedAt(b[i], slots[i], sprites);
      }
    }
  }

  /** A level spaced from `from` to the end of a prefix, and spaced after the prefix, is
      spaced from `from`. */
  lemma SpacedJoin(a: seq<Entity>, r: seq<Entity>, from: nat)
    requires |a| <= |r| && r[..|a|] == a && from <= |a|
    requires Spaced(a, from) && Spaced(r, |a|)
    ensures Spaced(r, from)
  {
    forall i | from <= i < |r| && 0 < i
      ensures !Overlaps(r[i].spawnRect, r[i - 1].spawnRect)
    {
      if i < |a| {
        assert r[i] == a[i] && r[i - 1] == a[i - 1];
      }
    }
  }
}
