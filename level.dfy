/** Level generation (Play.createLevel in screen.py): how many entities of each kind a
    level has, chosen by a random archetype, and where they are placed. */
module Levels {
  import opened Geometry
  import opened Sequences
  import opened Entities

  /** The possible* counters of the Play screen. */
  datatype Counts = Counts(
    pits: int, ladders: int, walls: int, barrels: int,
    coins: int, undergroundCoins: int,
    ghosts: int, rats: int, snakes: int)

  /** The counters a Play screen starts with, before its first level is generated. */
  const InitialCounts := Counts(1, 1, 1, 2, 3, 2, 0, 1, 1)

  /** The archetype table: kinds 1 to 4 set the ladder, pit, wall, barrel, snake, rat and
      ghost counters; coin counters are never changed, and any other kind changes nothing. */
  function Archetype(kind: int, prev: Counts): (r: Counts)
    ensures r.coins == prev.coins && r.undergroundCoins == prev.undergroundCoins
    ensures !(1 <= kind <= 4) ==> r == prev
  {
    if kind == 1 then prev.(ladders := 1, pits := 0, walls := 1, barrels := 0, snakes := 0, rats := 3, ghosts := 0)
    else if kind == 2 then prev.(ladders := 1, pits := 0, walls := 1, barrels := 2, snakes := 0, rats := 0, ghosts := 2)
    else if kind == 3 then prev.(ladders := 0, pits := 0, walls := 1, barrels := 1, snakes := 2, rats := 0, ghosts := 0)
    else if kind == 4 then prev.(ladders := 0, pits := 1, walls := 0, barrels := 0, snakes := 0, rats := 5, ghosts := 0)
    else prev
  }

  /** The counters for archetype `kind`, with the Dead Zone power-up (index 3) clearing
      every animal when it is in use. */
  function Composition(kind: int, prev: Counts, deadZone: bool): (r: Counts)
    ensures deadZone ==> r.ghosts == 0 && r.rats == 0 && r.snakes == 0
    ensures !deadZone ==> r == Archetype(kind, prev)
    ensures r.(ghosts := 0, rats := 0, snakes := 0) == Archetype(kind, prev).(ghosts := 0, rats := 0, snakes := 0)
  {
    var c := Archetype(kind, prev);
    if deadZone then c.(snakes := 0, rats := 0, ghosts := 0) else c
  }

  /** Each archetype sets exactly the counts of the table. */
  lemma ArchetypeTable(prev: Counts)
    ensures var c := Archetype(1, prev);
            c.ladders == 1 && c.pits == 0 && c.walls == 1 && c.barrels == 0 && c.snakes == 0 && c.rats == 3 && c.ghosts == 0
    ensures var c := Archetype(2, prev);
            c.ladders == 1 && c.pits == 0 && c.walls == 1 && c.barrels == 2 && c.snakes == 0 && c.rats == 0 && c.ghosts == 2
    ensures var c := Archetype(3, prev);
            c.ladders == 0 && c.pits == 0 && c.walls == 1 && c.barrels == 1 && c.snakes == 2 && c.rats == 0 && c.ghosts == 0
    ensures var c := Archetype(4, prev);
            c.ladders == 0 && c.pits == 1 && c.walls == 0 && c.barrels == 0 && c.snakes == 0 && c.rats == 5 && c.ghosts == 0
  {
  }

  /** A level's make-up depends only on its archetype, not on the level before it. */
  lemma ArchetypeForgetsPrevious(kind: int, a: Counts, b: Counts)
    requires 1 <= kind <= 4 && a.coins == b.coins && a.undergroundCoins == b.undergroundCoins
    ensures Archetype(kind, a) == Archetype(kind, b)
  {
  }

  /** The archetype is drawn with randrange(1, 4), which yields 1, 2 or 3 only; archetype 4
      is never drawn, so a generated level never has a pit, and the counters stay
      non-negative and the pit counter is forgotten. */
  lemma DrawnArchetypesHaveNoPit(kind: int, prev: Counts, deadZone: bool)
    requires 1 <= kind < 4
    ensures Composition(kind, prev, deadZone).pits == 0
    ensures Composition(kind, prev, deadZone).walls == 1
  {
  }

  /** One of the nine placement loops: the kind placed, the range of the first random x,
      the range of the x drawn again after a collision, and the fixed y. */
  datatype Slot = Slot(kind: Kind, lo: int, retryLo: int, hi: int, y: int)
  {
    /** A range that always leaves room, beside any one placed entity, for a sprite of
        the widest spawn width. */
    predicate Roomy()
    {
      retryLo <= lo <= hi && hi - retryLo >= 2 * MaxSpawnWidth
    }
  }

  const PitSlot := Slot(Pit, 140, 140, 555, 485)
  const LadderSlot := Slot(Ladder, 140, 140, 1010, 492)
  /** Barrels are first drawn at 340 or beyond, clear of the player's start, but a
      redrawn barrel can land anywhere from 140. */
  const BarrelSlot := Slot(Barrel, 340, 140, 1010, 474)
  const WallSlot := Slot(Wall, 140, 140, 1010, 584)
  const CoinSlot := Slot(Coin, 140, 140, 1010, 483)
  const UndergroundCoinSlot := Slot(Coin, 140, 140, 1010, 670)
  const GhostSlot := Slot(Ghost, 140, 140, 1010, 605)
  const RatSlot := Slot(Rat, 140, 140, 1010, 679)
  const SnakeSlot := Slot(Snake, 140, 140, 1010, 466)

  /** `n` copies of `s`; a count of zero or less places nothing, as range() does. */
  function Repeat(s: Slot, n: int): (r: seq<Slot>)
    ensures |r| == if n <= 0 then 0 else n
    ensures forall i :: 0 <= i < |r| ==> r[i] == s
    decreases n
  {
    if n <= 0 then [] else Repeat(s, n - 1) + [s]
  }

  /** The order createLevel places entities in: pits, ladders, barrels, walls, coins,
      underground coins, ghosts, rats, snakes. Every slot leaves room for a sprite. */
  function Layout(c: Counts): (r: seq<Slot>)
    ensures forall i :: 0 <= i < |r| ==> r[i].Roomy()
  {
    Repeat(PitSlot, c.pits) + Repeat(LadderSlot, c.ladders) + Repeat(BarrelSlot, c.barrels)
    + Repeat(WallSlot, c.walls) + Repeat(CoinSlot, c.coins) + Repeat(UndergroundCoinSlot, c.undergroundCoins)
    + Repeat(GhostSlot, c.ghosts) + Repeat(RatSlot, c.rats) + Repeat(SnakeSlot, c.snakes)
  }

  /** How many slots of `slots` place an entity of kind `k`. */
  function CountKind(slots: seq<Slot>, k: Kind): nat
  {
    if slots == [] then 0
    else CountKind(slots[..|slots| - 1], k) + (if slots[|slots| - 1].kind == k then 1 else 0)
  }

  /** Counting over two sequences of slots adds up. */
  lemma {:induction false} CountKindAppend(a: seq<Slot>, b: seq<Slot>, k: Kind)
    ensures CountKind(a + b, k) == CountKind(a, k) + CountKind(b, k)
  {
    if b == [] {
      assert a + b == a;
    } else {
      assert (a + b)[..|a + b| - 1] == a + b[..|b| - 1];
      CountKindAppend(a, b[..|b| - 1], k);
    }
  }

  /** How many entities of kind `k` a loop placing `n` entities of kind `placed` adds. */
  function Hits(placed: Kind, n: int, k: Kind): int
  {
    if placed == k && n > 0 then n else 0
  }

  /** `n` slots of kind `s.kind` hold `n` entities of that kind and none of another. */
  lemma {:induction false} CountRepeat(s: Slot, n: int, k: Kind)
    ensures CountKind(Repeat(s, n), k) == Hits(s.kind, n, k)
    decreases n
  {
    if n > 0 {
      var r := Repeat(s, n);
      assert r == Repeat(s, n - 1) + [s];
      assert r[..|r| - 1] == Repeat(s, n - 1) && r[|r| - 1] == s;
      CountRepeat(s, n - 1, k);
    }
  }

  /** How many entities of kind `k` the counters ask for: coins above and under ground
      together make up the coins. */
  function Planned(c: Counts, k: Kind): int
  {
    match k
    case Pit => c.pits
    case Ladder => c.ladders
    case Barrel => c.barrels
    case Wall => c.walls
    case Coin => c.coins + c.undergroundCoins
    case Ghost => c.ghosts
    case Rat => c.rats
    case Snake => c.snakes
  }

  /** Counting kinds over a layout is counting over each of its nine placement loops. */
  lemma LayoutSum(c: Counts, k: Kind)
    ensures CountKind(Layout(c), k) ==
      CountKind(Repeat(PitSlot, c.pits), k) + CountKind(Repeat(LadderSlot, c.ladders), k)
      + CountKind(Repeat(BarrelSlot, c.barrels), k) + CountKind(Repeat(WallSlot, c.walls), k)
      + CountKind(Repeat(CoinSlot, c.coins), k) + CountKind(Repeat(UndergroundCoinSlot, c.undergroundCoins), k)
      + CountKind(Repeat(GhostSlot, c.ghosts), k) + CountKind(Repeat(RatSlot, c.rats), k)
      + CountKind(Repeat(SnakeSlot, c.snakes), k)
  {
    var p1, p2, p3 := Repeat(PitSlot, c.pits), Repeat(LadderSlot, c.ladders), Repeat(BarrelSlot, c.barrels);
    var p4, p5, p6 := Repeat(WallSlot, c.walls), Repeat(CoinSlot, c.coins), Repeat(UndergroundCoinSlot, c.undergroundCoins);
    var p7, p8, p9 := Repeat(GhostSlot, c.ghosts), Repeat(RatSlot, c.rats), Repeat(SnakeSlot, c.snakes);
    CountKindAppend(p1, p2, k);
    CountKindAppend(p1 + p2, p3, k);
    CountKindAppend(p1 + p2 + p3, p4, k);
    CountKindAppend(p1 + p2 + p3 + p4, p5, k);
    CountKindAppend(p1 + p2 + p3 + p4 + p5, p6, k);
    CountKindAppend(p1 + p2 + p3 + p4 + p5 + p6, p7, k);
    CountKindAppend(p1 + p2 + p3 + p4 + p5 + p6 + p7, p8, k);
    CountKindAppend(p1 + p2 + p3 + p4 + p5 + p6 + p7 + p8, p9, k);
  }

  /** A generated level holds exactly the counted number of entities of each kind. */
  lemma LayoutCounts(c: Counts, k: Kind)
    requires c.pits >= 0 && c.ladders >= 0 && c.walls >= 0 && c.barrels >= 0
    requires c.coins >= 0 && c.undergroundCoins >= 0 && c.ghosts >= 0 && c.rats >= 0 && c.snakes >= 0
    ensures CountKind(Layout(c), k) == Planned(c, k)
  {
    LayoutSum(c, k);
    CountRepeat(PitSlot, c.pits, k);
    CountRepeat(LadderSlot, c.ladders, k);
    CountRepeat(BarrelSlot, c.barrels, k);
    CountRepeat(WallSlot, c.walls, k);
    CountRepeat(CoinSlot, c.coins, k);
    CountRepeat(UndergroundCoinSlot, c.undergroundCoins, k);
    CountRepeat(GhostSlot, c.ghosts, k);
    CountRepeat(RatSlot, c.rats, k);
    CountRepeat(SnakeSlot, c.snakes, k);
    PlannedSum(c, k);
  }

  /** The nine loops together add the planned number of each kind. */
  lemma PlannedSum(c: Counts, k: Kind)
    requires c.pits >= 0 && c.ladders >= 0 && c.walls >= 0 && c.barrels >= 0
    requires c.coins >= 0 && c.undergroundCoins >= 0 && c.ghosts >= 0 && c.rats >= 0 && c.snakes >= 0
    ensures Planned(c, k) ==
      Hits(Pit, c.pits, k) + Hits(Ladder, c.ladders, k) + Hits(Barrel, c.barrels, k) + Hits(Wall, c.walls, k)
      + Hits(Coin, c.coins, k) + Hits(Coin, c.undergroundCoins, k)
      + Hits(Ghost, c.ghosts, k) + Hits(Rat, c.rats, k) + Hits(Snake, c.snakes, k)
  {
  }

  /** Every entity's spawn rectangle is at most MaxSpawnWidth wide. */
  predicate Narrow(level: seq<Entity>)
  {
    forall e | e in level :: e.spawnRect.w <= MaxSpawnWidth
  }

  /** From index `from` on, each entity's spawn rectangle is clear of the one placed just
      before it. */
  predicate Spaced(level: seq<Entity>, from: nat)
  {
    forall i :: from <= i < |level| && 0 < i ==> !Overlaps(level[i].spawnRect, level[i - 1].spawnRect)
  }

  /** `e` is a new entity of slot `s`'s kind, in its first state, at the slot's y and at an
      x the slot allows. */
  ghost predicate PlacedAt(e: Entity, s: Slot, sprites: Sprites)
    reads e
  {
    && e.kind == s.kind
    && e.Valid()
    && s.retryLo <= e.spawnRect.x <= s.hi
    && e.spawnRect == Rect(e.spawnRect.x, s.y, sprites.SizeOf(s.kind).w, sprites.SizeOf(s.kind).h)
    && e.State() == Spawned(e.spawnRect.x as real)
  }

  /** Entity i is placed as slot i says. */
  ghost predicate PlacedAs(es: seq<Entity>, slots: seq<Slot>, sprites: Sprites)
    reads es
  {
    |es| == |slots| && forall i :: 0 <= i < |es| ==> PlacedAt(es[i], slots[i], sprites)
  }

  /** One pass of a placement loop: draw x, then for every entity already placed, in order,
      redraw x from the retry range until the new sprite is clear of that entity.  The new
      entity ends up clear of the last entity placed; clear of the entities before it only
      by chance, since a redraw is not checked against them again. */
  method PlaceOne(level: seq<Entity>, s: Slot, sprites: Sprites) returns (e: Entity)
    requires sprites.Fits() && s.Roomy() && Narrow(level)
    ensures fresh(e) && PlacedAt(e, s, sprites)
    ensures |level| > 0 ==> !Overlaps(e.spawnRect, level[|level| - 1].spawnRect)
  {
    var size := sprites.SizeOf(s.kind);
    var x := RandInt(s.lo, s.hi);
    var j := 0;
    while j < |level|
      invariant 0 <= j <= |level|
      invariant s.retryLo <= x <= s.hi
      invariant 0 < j ==> !Overlaps(Rect(x, s.y, size.w, size.h), level[j - 1].spawnRect)
    {
      var t := level[j].spawnRect;
      if Overlaps(Rect(x, s.y, size.w, size.h), t) {
        x := RandClear(s.retryLo, s.hi, s.y, size.w, size.h, t);
      }
      j := j + 1;
    }
    e := new Entity(s.kind, x, s.y, sprites);
  }

  /** Appending an entity placed as `s` extends a run of entities placed as `s`. */
  lemma PlacedAsSnoc(added: seq<Entity>, e: Entity, s: Slot, sprites: Sprites)
    requires PlacedAs(added, Repeat(s, |added|), sprites) && PlacedAt(e, s, sprites)
    ensures PlacedAs(added + [e], Repeat(s, |added| + 1), sprites)
  {
    assert Repeat(s, |added| + 1) == Repeat(s, |added|) + [s];
  }

  /** Appending a new, narrow entity keeps a level narrow and free of repetitions. */
  lemma NarrowDistinctSnoc(xs: seq<Entity>, e: Entity)
    requires Narrow(xs) && Distinct(xs) && e !in xs && e.spawnRect.w <= MaxSpawnWidth
    ensures Narrow(xs + [e]) && Distinct(xs + [e])
  {
  }

  /** Appending an entity clear of the last one keeps a level spaced. */
  lemma SpacedSnoc(xs: seq<Entity>, e: Entity, from: nat)
    requires Spaced(xs, from) && from <= |xs|
    requires |xs| > 0 ==> !Overlaps(e.spawnRect, xs[|xs| - 1].spawnRect)
    ensures Spaced(xs + [e], from)
  {
  }

  /** What a placement loop keeps after appending `added` to `level`: the new entities are
      placed as the slot says, the level stays narrow and free of repetitions, each new
      entity is clear of the one before it, and a spaced level stays spaced. */
  ghost predicate RunKeeps(level: seq<Entity>, added: seq<Entity>, s: Slot, sprites: Sprites)
    reads added
  {
    && PlacedAs(added, Repeat(s, |added|), sprites)
    && Narrow(level + added) && Distinct(level + added)
    && (Spaced(level, 0) ==> Spaced(level + added, 0))
    && Spaced(level + added, |level|)
  }

  /** One more pass of a placement loop keeps what the loop keeps. */
  lemma RunStep(level: seq<Entity>, added: seq<Entity>, e: Entity, s: Slot, sprites: Sprites)
    requires RunKeeps(level, added, s, sprites)
    requires PlacedAt(e, s, sprites) && e !in level + added
    requires |level + added| > 0 ==> !Overlaps(e.spawnRect, (level + added)[|level + added| - 1].spawnRect)
    ensures RunKeeps(level, added + [e], s, sprites)
  {
    PlacedAsSnoc(added, e, s, sprites);
    NarrowDistinctSnoc(level + added, e);
    SpacedSnoc(level + added, e, |level|);
    if Spaced(level, 0) {
      SpacedSnoc(level + added, e, 0);
    }
    assert level + (added + [e]) == (level + added) + [e];
  }

  /** One placement loop: `n` passes of PlaceOne, each appending to the level. */
  method PlaceRun(level: seq<Entity>, s: Slot, n: int, sprites: Sprites) returns (r: seq<Entity>)
    requires sprites.Fits() && s.Roomy() && Narrow(level) && Distinct(level)
    ensures |r| >= |level| && r[..|level|] == level
    ensures PlacedAs(r[|level|..], Repeat(s, n), sprites)
    ensures forall i :: |level| <= i < |r| ==> fresh(r[i])
    ensures Narrow(r) && Distinct(r)
    ensures Spaced(level, 0) ==> Spaced(r, 0)
    ensures Spaced(r, |level|)
  {
    var added: seq<Entity> := [];
    var i := 0;
    assert level + added == level;
    while i < n
      invariant 0 <= i && (n > 0 ==> i <= n) && (n <= 0 ==> i == 0)
      invariant |added| == i
      invariant forall k :: 0 <= k < |added| ==> fresh(added[k])
      invariant RunKeeps(level, added, s, sprites)
    {
      var e := PlaceOne(level + added, s, sprites);
      RunStep(level, added, e, s, sprites);
      added := added + [e];
      i := i + 1;
    }
    r := level + added;
    assert r[..|level|] == level && r[|level|..] == added;
    assert Repeat(s, i) == Repeat(s, n);
  }
}
