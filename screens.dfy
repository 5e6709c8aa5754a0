/** The screen manager (ScreenManager in screen.py, driven by the loop in game.py): exactly
    one screen is active; key events and frames go to it, the screen changes it asks for
    replace it, and quitting saves a game in progress. */
module Screens {
  import opened Input
  import opened Progress
  import opened Entities
  import opened Menus
  import opened Sessions
  import opened Sequences

  /** The active screen. */
  datatype Screen =
    | MenuScreen(menu: MainMenu)
    | StoreScreen(store: Store)
    | PlayScreen(play: Play)
    | LoseScreen(lose: Lose)

  /** Which of the four screens is active. */
  datatype Tag = MenuTag | StoreTag | PlayTag | LoseTag

  function TagOf(s: Screen): Tag
  {
    match s
    case MenuScreen(_) => MenuTag
    case StoreScreen(_) => StoreTag
    case PlayScreen(_) => PlayTag
    case LoseScreen(_) => LoseTag
  }

  /** The screen that follows `t` when its handler asks for `a`: a change of screen names
      the new one; staying, and shutting the game down, keep the current one. */
  function Next(t: Tag, a: Action): (r: Tag)
    ensures a == Stay || a == Shutdown ==> r == t
    ensures a == ToMainMenu ==> r == MenuTag
    ensures a == ToStore ==> r == StoreTag
    ensures a == ToPlay ==> r == PlayTag
    ensures a.ToLose? ==> r == LoseTag
  {
    match a
    case Stay => t
    case Shutdown => t
    case ToMainMenu => MenuTag
    case ToStore => StoreTag
    case ToPlay => PlayTag
    case ToLose(_, _, _, _) => LoseTag
  }

  /** The objects a screen consists of. */
  ghost function Footprint(s: Screen): set<object>
    reads if s.PlayScreen? then {s.play} else {}
  {
    match s
    case MenuScreen(m) => {m}
    case StoreScreen(st) => {st}
    case PlayScreen(p) => {p, p.player} + set e | e in p.level
    case LoseScreen(_) => {}
  }

  /** Only a game in progress has anything to save. */
  function Saving(doc: map<string, int>, s: Screen, record: Session): (r: map<string, int>)
    requires CoinsKey in doc
    ensures !s.PlayScreen? ==> r == doc
    ensures s.PlayScreen? ==> r == Saved(doc, record)
  {
    if s.PlayScreen? then Saved(doc, record) else doc
  }

  /** Once the Lose screen replaces a game, a save on quit leaves the document alone. */
  lemma SaveOnlyFromPlay(doc: map<string, int>, l: Lose, record: Session)
    requires CoinsKey in doc
    ensures Saving(doc, LoseScreen(l), record) == doc
  {
  }

  /** Saving a game and then saving it again after its last frame adds the coins of both
      records to the stored total: a game's coins are counted twice. */
  lemma SavedTwiceCountsTwice(doc: map<string, int>, first: Session, last: Session)
    requires CoinsKey in doc
    ensures CoinsKey in Saved(doc, first)
    ensures Saved(Saved(doc, first), last)[CoinsKey] == doc[CoinsKey] + first.coins + last.coins
  {
  }

  /** What the main menu's key handler does to the menu. */
  twostate predicate MenuHandled(m: MainMenu, e: Event)
    reads m
  {
    m.selectedIndex == MenuMove(old(m.selectedIndex), e)
  }

  /** What the store's key handler does to the store and its save document: the shelf
      moves, Return buys the selected item, and no other key touches coins or document. */
  twostate predicate StoreHandled(st: Store, e: Event)
    requires old(st.Valid())
    reads st, st.save
  {
    && st.View() == ShelfMove(old(st.View()), e)
    && (e == Press(ReturnKey) ==>
          Till(st.coins, st.save.doc) == Purchase(old(Till(st.coins, st.save.doc)), old(st.View().Selected())))
    && (e != Press(ReturnKey) ==> st.coins == old(st.coins) && st.save.doc == old(st.save.doc))
  }

  /** What the game's key handler does: the power-ups move as `PowerKey`, Dead Zone's
      activation clears the animals, and the player moves as `Control` and turns as `Turn`
      with health, score and coins untouched. */
  twostate predicate PlayHandled(p: Play, e: Event, ladderContact: bool)
    reads p, p.player
  {
    && p.PowerState() == PowerKey(old(p.PowerState()), e)
    && p.level == (if e == Press(ReturnKey) && old(p.PowerState()).CanActivate() && old(p.powerIndex) == DeadZoneIndex
                   then WithoutAnimals(old(p.level)) else old(p.level))
    && p.player.Snapshot() == Control(old(p.player.Snapshot()), e, FirstOf(old(p.level), Ladder) >= 0 && ladderContact)
    && p.player.orientation == Turn(old(p.player.orientation), e)
    && p.player.health == old(p.player.health) && p.player.score == old(p.player.score)
    && p.player.coins == old(p.player.coins)
  }

  class ScreenManager {
    const save: SaveFile
    const sprites: Sprites
    /** Height of the player's first idle sprite, handed to every new game. */
    const idleHeight: real
    var current: Screen
    /** False once the window has been closed or Quit chosen. */
    var running: bool

    ghost predicate Valid()
      reads this, save, Footprint(current)
    {
      && save.Valid()
      && sprites.Fits()
      && (current.StoreScreen? ==> current.store.save == save && current.store.Valid())
      && (current.PlayScreen? ==> current.play.save == save && current.play.Valid())
    }

    /** Game(): the manager starts on the main menu. */
    constructor (save: SaveFile, sprites: Sprites, idleHeight: real)
      requires save.Valid() && sprites.Fits()
      ensures Valid() && running && TagOf(current) == MenuTag && current.menu.selectedIndex == 1
      ensures this.save == save && this.sprites == sprites && this.idleHeight == idleHeight
    {
      this.save := save;
      this.sprites := sprites;
      this.idleHeight := idleHeight;
      var m := new MainMenu();
      current := MenuScreen(m);
      running := true;
    }

    /** ScreenManager.saveAll: a game in progress writes its coins, counters and, if
        beaten, the high score; any other screen writes nothing. */
    method SaveAll()
      requires Valid()
      modifies save
      ensures Valid()
      ensures save.doc == Saving(old(save.doc), current,
                                 if current.PlayScreen? then old(current.play.Record()) else Session(0, 0, 0, 0, 0, 0, 0))
    {
      if current.PlayScreen? {
        save.Save(current.play.Record());
      }
    }

    /** ScreenManager.set, called by a handler with the screen it asks for: a fresh main
        menu, store, game or lose screen; MainMenu's Quit shuts the game down. */
    method Apply(a: Action)
      requires Valid()
      modifies this
      ensures Valid()
      ensures TagOf(current) == Next(old(TagOf(current)), a)
      ensures running == (old(running) && a != Shutdown)
      ensures a == Stay || a == Shutdown ==> current == old(current)
      ensures a == ToMainMenu ==> fresh(current.menu) && current.menu.selectedIndex == 1
      ensures a == ToStore ==> fresh(current.store) && current.store.View() == Shelf(Catalogue, 1)
                               && current.store.coins == save.doc[CoinsKey]
      ensures a == ToPlay ==> fresh(current.play) && current.play.player.health == FullHealth
                              && current.play.player.score == 0 && current.play.player.coins == 0
      ensures a.ToLose? ==> current == LoseScreen(Lose(a.score, a.highScore, a.totalCoins, a.coins))
    {
      match a {
        case Stay =>
        case Shutdown =>
          running := false;
        case ToMainMenu =>
          OpenMenu();
        case ToStore =>
          OpenStore();
        case ToPlay =>
          OpenPlay();
        case ToLose(score, highScore, totalCoins, coins) =>
          current := LoseScreen(Lose(score, highScore, totalCoins, coins));
      }
    }

    /** set(MainMenu(...)) */
    method OpenMenu()
      requires Valid()
      modifies this`current
      ensures Valid() && current.MenuScreen? && fresh(current.menu) && current.menu.selectedIndex == 1
    {
      var m := new MainMenu();
      current := MenuScreen(m);
    }

    /** set(Store(...)) */
    method OpenStore()
      requires Valid()
      modifies this`current
      ensures Valid() && current.StoreScreen? && fresh(current.store)
      ensures current.store.View() == Shelf(Catalogue, 1) && current.store.coins == save.doc[CoinsKey]
    {
      var st := new Store(save);
      current := StoreScreen(st);
    }

    /** set(Play(...)) */
    method OpenPlay()
      requires Valid()
      modifies this`current
      ensures Valid() && current.PlayScreen? && fresh(current.play)
      ensures current.play.player.health == FullHealth
      ensures current.play.player.score == 0 && current.play.player.coins == 0
    {
      var p := new Play(save, sprites, idleHeight);
      current := PlayScreen(p);
    }

    /** One event of game.py's loop: closing the window saves a game in progress and stops
        the loop; every other event goes to the active screen's key handler, whose
        requested screen change is applied.  `ladderContact` is whether the game's first
        ladder touches the player (rectangles are not modelled). */
    method HandleEvent(e: Event, ladderContact: bool)
      requires Valid()
      modifies this, save, Footprint(current)
      ensures Valid()
      ensures e == QuitRequest ==> !running && current == old(current)
      ensures e == QuitRequest && current.PlayScreen? ==>
                unchanged(current.play, current.play.player) && unchanged(current.play.level)
      ensures e == QuitRequest && old(current).PlayScreen? ==>
                save.doc == Saved(old(save.doc), old(current.play.Record()))
      ensures e == QuitRequest && !old(current).PlayScreen? ==> save.doc == old(save.doc)
      ensures e != QuitRequest && old(current).MenuScreen? ==>
                && MenuHandled(old(current).menu, e) && save.doc == old(save.doc)
                && TagOf(current) == Next(MenuTag, MenuAction(old(current.menu.selectedIndex), e))
                && (MenuAction(old(current.menu.selectedIndex), e) == Stay ==> current == old(current))
                && running == (old(running) && MenuAction(old(current.menu.selectedIndex), e) != Shutdown)
      ensures e != QuitRequest && old(current).StoreScreen? ==>
                && StoreHandled(old(current).store, e)
                && (e != Press(ReturnKey) ==> save.doc == old(save.doc))
                && TagOf(current) == (if e == Release(EKey) then MenuTag else StoreTag)
                && (e != Release(EKey) ==> current == old(current))
      ensures e != QuitRequest && old(current).PlayScreen? ==>
                && PlayHandled(old(current).play, e, ladderContact)
                && current == old(current) && save.doc == old(save.doc)
      ensures e != QuitRequest && !old(current).MenuScreen? ==> running == old(running)
      ensures e != QuitRequest && old(current).LoseScreen? ==>
                TagOf(current) == Next(LoseTag, old(current).lose.KeyDown(e)) && save.doc == old(save.doc)
    {
      if e == QuitRequest {
        SaveAll();
        running := false;
      } else {
        match current {
          case MenuScreen(m) =>
            MenuKey(e);
          case StoreScreen(st) =>
            StoreKey(e);
          case PlayScreen(p) =>
            p.KeyDown(e, ladderContact);
          case LoseScreen(l) =>
            Apply(l.KeyDown(e));
        }
      }
    }

    /** An event on the main menu. */
    method MenuKey(e: Event)
      requires Valid() && current.MenuScreen?
      modifies this, current.menu
      ensures Valid()
      ensures MenuHandled(old(current).menu, e) && save.doc == old(save.doc)
      ensures TagOf(current) == Next(MenuTag, MenuAction(old(current.menu.selectedIndex), e))
      ensures MenuAction(old(current.menu.selectedIndex), e) == Stay ==> current == old(current)
      ensures running == (old(running) && MenuAction(old(current.menu.selectedIndex), e) != Shutdown)
    {
      var a := current.menu.KeyDown(e);
      Apply(a);
    }

    /** An event on the store. */
    method StoreKey(e: Event)
      requires Valid() && current.StoreScreen?
      modifies this, save, current.store
      ensures Valid()
      ensures StoreHandled(old(current).store, e)
      ensures e != Press(ReturnKey) ==> save.doc == old(save.doc)
      ensures TagOf(current) == if e == Release(EKey) then MenuTag else StoreTag
      ensures e != Release(EKey) ==> current == old(current)
      ensures running == old(running)
    {
      var a := current.store.KeyDown(e);
      Apply(a);
    }

    /** The active game's draw(), before any screen change: the game runs its frame, whose
        effects are those of its collision pass, and the session is saved exactly when the
        health test says Die. */
    method PlayFrame(hits: seq<bool>, wallContact: bool)
        returns (a: Action, ghost effects: seq<Effect>, ghost advanced: bool, ghost kind: int)
      requires Valid() && current.PlayScreen? && |hits| == |current.play.level|
      modifies save, Footprint(current)
      ensures Valid()
      ensures !a.ToLose? ==>
                current.play.Framed(old(current.play.level), hits, wallContact, old(save.doc), a, effects, advanced, kind)
      ensures effects == old(current.play.NextEffects(hits))
      ensures a.ToLose? <==> HealthOutcome(HealthAfter(old(current.play.player.health), effects),
                                           old(current.play.usedPowerups), old(current.play.noMoreLives)) == Die
      ensures a.ToLose? ==> save.doc == Saved(old(save.doc), current.play.Record())
      ensures !a.ToLose? ==> save.doc == old(save.doc)
    {
      var p := current.play;
      ghost var before := States(p.level);
      a, effects, advanced, kind := p.Frame(hits, wallContact);
      CollidedEffects(old(p.level), before, hits, effects);
    }

    /** One frame of game.py's loop: only a game does anything besides drawing; when it
        ends, the Lose screen it asks for replaces it.  `hits` and `wallContact` are the
        game's collision results for this frame. */
    method Tick(hits: seq<bool>, wallContact: bool)
        returns (ghost a: Action, ghost effects: seq<Effect>, ghost advanced: bool, ghost kind: int)
      requires Valid()
      requires current.PlayScreen? ==> |hits| == |current.play.level|
      modifies this, save, Footprint(current)
      ensures Valid()
      ensures running == old(running)
      ensures !old(current).PlayScreen? ==> current == old(current) && save.doc == old(save.doc)
      // a game runs its frame, and hands over to the Lose screen exactly when the health test says Die
      ensures old(current).PlayScreen? && !a.ToLose? ==>
                old(current).play.Framed(old(current.play.level), hits, wallContact, old(save.doc), a, effects, advanced, kind)
      // the frame's effects are those of its collision pass over the game's entities
      ensures old(current).PlayScreen? ==> effects == old(current.play.NextEffects(hits))
      ensures old(current).PlayScreen? ==>
                && (a.ToLose? <==> HealthOutcome(HealthAfter(old(current.play.player.health), effects),
                                                 old(current.play.usedPowerups), old(current.play.noMoreLives)) == Die)
                && (a.ToLose? ==> current == LoseScreen(Lose(a.score, a.highScore, a.totalCoins, a.coins))
                                  && save.doc == Saved(old(save.doc), old(current).play.Record()))
                && (!a.ToLose? ==> current == old(current) && save.doc == old(save.doc))
    {
      a, effects, advanced, kind := Stay, [], false, 0;
      if current.PlayScreen? {
        var action;
        action, effects, advanced, kind := PlayFrame(hits, wallContact);
        a := action;
        if action.ToLose? {
          current := LoseScreen(Lose(action.score, action.highScore, action.totalCoins, action.coins));
        }
      }
    }

    /** game.py's loop as written, in the iteration that receives the window's close
        event during a game: the event saves the game, and the frame drawn after it still
        runs. If the player dies in that frame, the game is saved a second time. */
    method QuitFrameAsWritten(hits: seq<bool>, wallContact: bool) returns (ghost effects: seq<Effect>)
      requires Valid() && current.PlayScreen? && |hits| == |current.play.level|
      modifies this, save, Footprint(current)
      ensures Valid() && !running
      // the effects of the frame that still runs
      ensures effects == old(current.play.NextEffects(hits))
      ensures var o := HealthOutcome(HealthAfter(old(current.play.player.health), effects),
                                     old(current.play.usedPowerups), old(current.play.noMoreLives));
              && (o == Die ==> current.LoseScreen? && save.doc ==
                                 Saved(Saved(old(save.doc), old(current.play.Record())), old(current).play.Record()))
              && (o != Die ==> current == old(current) && save.doc == Saved(old(save.doc), old(current.play.Record())))
    {
      HandleEvent(QuitRequest, false);
      ghost var a, advanced, kind;
      a, effects, advanced, kind := Tick(hits, wallContact);
    }

    /** The same iteration as evidently intended: once the window is closed, the loop
        ends without drawing another frame, so the game is saved exactly once and neither
        it nor the level changes. */
    method QuitFrame()
      requires Valid() && current.PlayScreen?
      modifies this, save, Footprint(current)
      ensures Valid() && !running && current == old(current)
      ensures save.doc == Saved(old(save.doc), old(current.play.Record()))
      ensures unchanged(current.play, current.play.player)
    {
      HandleEvent(QuitRequest, false);
    }
  }
}
