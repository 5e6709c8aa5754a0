/** The three screens around a game (screen.py): the main menu with its cyclic selector,
    the store with its rotating shelf of four power-ups and its buy rule, and the screen
    shown after losing. */
module Menus {
  import opened Input
  import opened Progress

  // ---------------------------------------------------------------- main menu

  /** The option below `i` (Down): Play, Store, Quit and round again. */
  function MenuDown(i: int): (r: int)
    ensures 1 <= i <= 3 ==> 1 <= r <= 3 && r == i % 3 + 1
  {
    if i == 3 then 1 else i + 1
  }

  /** The option above `i` (Up). */
  function MenuUp(i: int): (r: int)
    ensures 1 <= i <= 3 ==> 1 <= r <= 3 && r == (i + 1) % 3 + 1
  {
    if i == 1 then 3 else i - 1
  }

  /** Up undoes Down and Down undoes Up, and three moves the same way come back. */
  lemma MenuMovesInverse(i: int)
    requires 1 <= i <= 3
    ensures MenuUp(MenuDown(i)) == i && MenuDown(MenuUp(i)) == i
    ensures MenuDown(MenuDown(MenuDown(i))) == i && MenuUp(MenuUp(MenuUp(i))) == i
  {
  }

  /** The selection after one event. */
  function MenuMove(i: int, e: Event): int
  {
    match e
    case Press(DownKey) => MenuDown(i)
    case Press(UpKey) => MenuUp(i)
    case _ => i
  }

  /** The selection after a sequence of events. */
  function MenuAfter(i: int, es: seq<Event>): int
  {
    if es == [] then i else MenuMove(MenuAfter(i, es[..|es| - 1]), es[|es| - 1])
  }

  /** Starting from any option (the menu starts at 1), the selection stays one of the
      three options whatever keys are pressed. */
  lemma {:induction false} MenuStaysInRange(i: int, es: seq<Event>)
    requires 1 <= i <= 3
    ensures 1 <= MenuAfter(i, es) <= 3
  {
    if es != [] {
      MenuStaysInRange(i, es[..|es| - 1]);
    }
  }

  /** What Return does on option `i`: 1 plays, 2 opens the store, 3 quits. */
  function MenuChoice(i: int): (a: Action)
    ensures 1 <= i <= 3 <==> a != Stay
    ensures a == ToPlay <==> i == 1
    ensures a == ToStore <==> i == 2
    ensures a == Shutdown <==> i == 3
  {
    if i == 1 then ToPlay else if i == 2 then ToStore else if i == 3 then Shutdown else Stay
  }

  /** What an event asks of the screen manager when option `i` is selected: only Return
      leaves the menu. */
  function MenuAction(i: int, e: Event): (a: Action)
    ensures a != Stay <==> e == Press(ReturnKey) && 1 <= i <= 3
  {
    if e == Press(ReturnKey) then MenuChoice(i) else Stay
  }

  class MainMenu {
    var selectedIndex: int

    constructor ()
      ensures selectedIndex == 1
    {
      selectedIndex := 1;
    }

    /** MainMenu.keyDownEvent */
    method KeyDown(e: Event) returns (a: Action)
      modifies this
      ensures selectedIndex == MenuMove(old(selectedIndex), e)
      ensures a == MenuAction(old(selectedIndex), e)
    {
      a := Stay;
      if e == Press(DownKey) {
        if selectedIndex == 3 {
          selectedIndex := 1;
        } else {
          selectedIndex := selectedIndex + 1;
        }
      } else if e == Press(UpKey) {
        if selectedIndex == 1 {
          selectedIndex := 3;
        } else {
          selectedIndex := selectedIndex - 1;
        }
      } else if e == Press(ReturnKey) {
        if selectedIndex == 1 {
          a := ToPlay;
        } else if selectedIndex == 2 {
          a := ToStore;
        } else if selectedIndex == 3 {
          a := Shutdown;
        }
      }
    }
  }

  // ---------------------------------------------------------------- store

  /** An item for sale; its name is also the save-file key counting how many are owned. */
  datatype Item = Item(name: string, cost: int)

  /** The store's items in the order the store opens with. */
  const Catalogue: seq<Item> := [
    Item(TwoXKey, 250), Item(FourXKey, 500), Item(DeadZoneKey, 100), Item(ExtraLifeKey, 100)]

  /** The shelf: four items of which the first three are on show, and the button position
      1..3 next to one of them.  The selected item is items[selects - 1]. */
  datatype Shelf = Shelf(items: seq<Item>, selects: int)
  {
    ghost predicate Ok()
    {
      |items| == 4 && 1 <= selects <= 3
    }

    function Selected(): Item
      requires Ok()
    {
      items[selects - 1]
    }
  }

  /** Down: the button moves one item down; from the bottom item the first item goes to
      the end of the list and the button stays at the bottom.  Either way the next item of
      the list, cyclically, becomes the selected one. */
  function ShelfDown(s: Shelf): (r: Shelf)
    requires |s.items| == 4
    ensures |r.items| == 4 && multiset(r.items) == multiset(s.items)
    ensures s.Ok() ==> r.Ok() && r.Selected() == s.items[s.selects % 4]
    ensures s.selects == 3 ==> r.items == s.items[1..] + [s.items[0]]
    ensures s.selects != 3 ==> r.items == s.items
  {
    var n := s.selects + 1;
    if n == 4 then
      assert s.items == [s.items[0]] + s.items[1..];
      Shelf(s.items[1..] + [s.items[0]], 3)
    else Shelf(s.items, n)
  }

  /** Up: the button moves one item up; from the top item the last item goes to the front
      and the button stays at the top.  Either way the previous item, cyclically, becomes
      the selected one. */
  function ShelfUp(s: Shelf): (r: Shelf)
    requires |s.items| == 4
    ensures |r.items| == 4 && multiset(r.items) == multiset(s.items)
    ensures s.Ok() ==> r.Ok() && r.Selected() == s.items[(s.selects + 2) % 4]
    ensures s.selects == 1 ==> r.items == [s.items[3]] + s.items[..3]
    ensures s.selects != 1 ==> r.items == s.items
  {
    var n := s.selects - 1;
    if n == 0 then
      assert s.items == s.items[..3] + [s.items[3]];
      Shelf([s.items[3]] + s.items[..3], 1)
    else Shelf(s.items, n)
  }

  /** Up after Down, and Down after Up, select the item that was selected before; away
      from the end the shelf turns, the whole shelf comes back. */
  lemma ShelfMovesInverse(s: Shelf)
    requires s.Ok()
    ensures ShelfUp(ShelfDown(s)).Selected() == s.Selected()
    ensures ShelfDown(ShelfUp(s)).Selected() == s.Selected()
    ensures s.selects < 3 ==> ShelfUp(ShelfDown(s)) == s
    ensures s.selects > 1 ==> ShelfDown(ShelfUp(s)) == s
  {
    var xs := s.items;
    if s.selects == 3 {
      var down := ShelfDown(s);
      assert down.items == xs[1..] + [xs[0]] && down.selects == 3;
      assert ShelfUp(down).selects == 2;
    } else if s.selects == 1 {
      var up := ShelfUp(s);
      assert up.items == [xs[3]] + xs[..3] && up.selects == 1;
      assert ShelfDown(up).selects == 2;
    }
  }

  /** The shelf after one event. */
  function ShelfMove(s: Shelf, e: Event): Shelf
    requires |s.items| == 4
  {
    match e
    case Press(DownKey) => ShelfDown(s)
    case Press(UpKey) => ShelfUp(s)
    case _ => s
  }

  /** The shelf after a sequence of events. */
  function ShelfAfter(s: Shelf, es: seq<Event>): (r: Shelf)
    requires |s.items| == 4
    ensures |r.items| == 4
  {
    if es == [] then s else ShelfMove(ShelfAfter(s, es[..|es| - 1]), es[|es| - 1])
  }

  /** Whatever keys are pressed, the button stays on one of the three items on show and
      the shelf keeps the same four items. */
  lemma {:induction false} ShelfStaysInRange(s: Shelf, es: seq<Event>)
    requires s.Ok()
    ensures ShelfAfter(s, es).Ok()
    ensures multiset(ShelfAfter(s, es).items) == multiset(s.items)
  {
    if es != [] {
      ShelfStaysInRange(s, es[..|es| - 1]);
    }
  }

  /** The store's coins (as shown) and the save document. */
  datatype Till = Till(coins: int, doc: map<string, int>)

  /** Buying `item`: it succeeds exactly when the coins cover its cost; then the coins drop
      by the cost, the new coin count is saved and the item's stored count rises by one,
      and nothing else in the document changes.  A failed purchase changes nothing. */
  function Purchase(t: Till, item: Item): (r: Till)
    requires item.name in t.doc && item.name != CoinsKey
    ensures r.doc.Keys == t.doc.Keys + (if t.coins >= item.cost then {CoinsKey} else {})
    ensures r != t ==> t.coins >= item.cost
    ensures t.coins >= item.cost ==> r.coins == t.coins - item.cost && r.doc[CoinsKey] == r.coins
    ensures t.coins >= item.cost ==> r.doc[item.name] == t.doc[item.name] + 1
    ensures t.coins < item.cost ==> r == t
    ensures forall k :: k in t.doc && k != CoinsKey && k != item.name ==> r.doc[k] == t.doc[k]
  {
    if t.coins - item.cost >= 0 then
      var c := t.coins - item.cost;
      var d := t.doc[CoinsKey := c];
      Till(c, d[item.name := d[item.name] + 1])
    else t
  }

  /** Spending is conserved: the coins spent are the cost times the number of items the
      purchase added, and a purchase never leaves a non-negative purse negative. */
  lemma PurchaseConserves(t: Till, item: Item)
    requires item.name in t.doc && item.name != CoinsKey && item.cost >= 0 && t.coins >= 0
    ensures var r := Purchase(t, item);
            r.coins >= 0 && t.coins - r.coins == item.cost * (r.doc[item.name] - t.doc[item.name])
  {
  }

  /** The names of the catalogue are save-file keys other than the coin count. */
  lemma CatalogueNames(it: Item)
    requires it in Catalogue
    ensures it.name in Keys && it.name != CoinsKey
  {
  }

  class Store {
    const save: SaveFile
    var coins: int
    var selects: int
    var items: seq<Item>

    function View(): Shelf
      reads this
    {
      Shelf(items, selects)
    }

    /** The shelf is the catalogue in some rotation and the shown coins are the saved ones. */
    ghost predicate Valid()
      reads this, save
    {
      && save.Valid()
      && View().Ok()
      && multiset(items) == multiset(Catalogue)
      && coins == save.doc[CoinsKey]
    }

    constructor (save: SaveFile)
      requires save.Valid()
      ensures this.save == save && coins == save.doc[CoinsKey]
      ensures View() == Shelf(Catalogue, 1) && Valid()
    {
      this.save := save;
      coins := save.doc[CoinsKey];
      selects := 1;
      items := Catalogue;
    }

    /** Store.keyDownEvent: Down and Up move the button, releasing E leaves for the main
        menu, Return buys the selected item. */
    method KeyDown(e: Event) returns (a: Action)
      requires Valid()
      modifies this, save
      ensures Valid()
      ensures View() == ShelfMove(old(View()), e)
      ensures e == Press(ReturnKey) ==>
                Till(coins, save.doc) == Purchase(old(Till(coins, save.doc)), old(View().Selected()))
      ensures e != Press(ReturnKey) ==> coins == old(coins) && save.doc == old(save.doc)
      ensures a == if e == Release(EKey) then ToMainMenu else Stay
    {
      a := Stay;
      if e == Press(DownKey) {
        MoveDown();
      } else if e == Press(UpKey) {
        MoveUp();
      } else if e == Release(EKey) {
        a := ToMainMenu;
      } else if e == Press(ReturnKey) {
        Buy();
      }
    }

    /** The Down branch of Store.keyDownEvent. */
    method MoveDown()
      requires Valid()
      modifies this
      ensures Valid() && View() == ShelfDown(old(View())) && coins == old(coins)
    {
      selects := selects + 1;
      if selects == 4 {
        var first := items[0];
        assert items == [first] + items[1..];
        items := items[1..] + [first];
        selects := 3;
      }
    }

    /** The Up branch of Store.keyDownEvent. */
    method MoveUp()
      requires Valid()
      modifies this
      ensures Valid() && View() == ShelfUp(old(View())) && coins == old(coins)
    {
      selects := selects - 1;
      if selects == 0 {
        var last := items[3];
        assert items == items[..3] + [last];
        items := [last] + items[..3];
        selects := 1;
      }
    }

    /** The Return branch of Store.keyDownEvent: buy the selected item if the coins cover it. */
    method Buy()
      requires Valid()
      modifies this, save
      ensures Valid() && View() == old(View())
      ensures Till(coins, save.doc) == Purchase(old(Till(coins, save.doc)), old(View().Selected()))
    {
      var item := items[selects - 1];
      assert item in multiset(Catalogue);
      CatalogueNames(item);
      if coins - item.cost >= 0 {
        coins := coins - item.cost;
        save.Edit(CoinsKey, coins);
        var owned := save.Read(item.name);
        save.Edit(item.name, owned + 1);
      }
    }
  }

  // ---------------------------------------------------------------- lose screen

  /** The screen after losing, with what it shows: the score, the high score, the new coin
      total and the coins earned in the game. */
  datatype Lose = Lose(score: int, highScore: int, totalCoins: int, coins: int)
  {
    /** Lose.keyDownEvent: releasing M, S or P leaves for the main menu, the store or a
        new game, and nothing else leaves the screen. */
    function KeyDown(e: Event): (a: Action)
      ensures a != Stay <==> e in {Release(MKey), Release(SKey), Release(PKey)}
      ensures a == ToMainMenu <==> e == Release(MKey)
      ensures a == ToStore <==> e == Release(SKey)
      ensures a == ToPlay <==> e == Release(PKey)
    {
      if e == Release(MKey) then ToMainMenu
      else if e == Release(SKey) then ToStore
      else if e == Release(PKey) then ToPlay
      else Stay
    }
  }
}
