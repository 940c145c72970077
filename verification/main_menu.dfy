/** `MainMenu` of main_menu.py: a cyclic selection over three labels and
    the dispatch of the selected label on RETURN. Drawing is left out; the
    effect of a dispatch on the game is applied by the game loop. */
module MainMenu {
  import opened Common

  const MenuItems: seq<string> := ["Start", "Options", "Exit"]

  /** The menu object; only its selection is state. */
  datatype Menu = Menu(selected: int)

  /** What RETURN asks the game to do. `NoAction` is the fall-through of
      the label comparison, which no label in `MenuItems` reaches. */
  datatype Action = StartGame | ShowOptions | ExitGame | NoAction

  predicate ValidMenu(m: Menu)
  {
    0 <= m.selected < |MenuItems|
  }

  /** `MainMenu(game)`: the first item is selected. */
  function NewMenu(): (m: Menu)
    ensures ValidMenu(m) && m.selected == 0 && MenuItems[m.selected] == "Start"
  {
    Menu(0)
  }

  /** DOWN moves to the next item and UP to the previous one, wrapping
      around with a non-negative remainder. */
  function Cycle(selected: int, down: bool): (s: int)
    ensures 0 <= s < |MenuItems|
    ensures down ==> (s - selected - 1) % |MenuItems| == 0
    ensures !down ==> (s - selected + 1) % |MenuItems| == 0
  {
    if down then (selected + 1) % |MenuItems| else (selected - 1) % |MenuItems|
  }

  /** UP undoes DOWN and DOWN undoes UP on any valid selection. */
  lemma CycleInverse(s: int)
    requires 0 <= s < |MenuItems|
    ensures Cycle(Cycle(s, true), false) == s
    ensures Cycle(Cycle(s, false), true) == s
  {
  }

  /** Three DOWNs, or three UPs, come back to the same item. */
  lemma CycleHasPeriodThree(s: int)
    requires 0 <= s < |MenuItems|
    ensures Cycle(Cycle(Cycle(s, true), true), true) == s
    ensures Cycle(Cycle(Cycle(s, false), false), false) == s
  {
  }

  /** `select_option`: compare the selected label with each known label. */
  function SelectOption(m: Menu): (a: Action)
    requires ValidMenu(m)
    ensures a == StartGame <==> m.selected == 0
    ensures a == ShowOptions <==> m.selected == 1
    ensures a == ExitGame <==> m.selected == 2
    ensures a != NoAction
  {
    var item := MenuItems[m.selected];
    if item == "Start" then StartGame
    else if item == "Options" then ShowOptions
    else if item == "Exit" then ExitGame
    else NoAction
  }

  /** One event of the loop in `MainMenu.update`: DOWN and UP key presses
      move the selection, RETURN yields the selected item's action, and
      every other event is ignored. */
  function HandleEvent(m: Menu, e: Event): (r: (Menu, Action))
    requires ValidMenu(m)
    ensures ValidMenu(r.0)
    ensures r.1 != NoAction <==> e == KeyDown(Return)
    ensures r.0 != m ==> e == KeyDown(Down) || e == KeyDown(Up)
    ensures e == KeyDown(Down) ==> r == (Menu(Cycle(m.selected, true)), NoAction)
    ensures e == KeyDown(Up) ==> r == (Menu(Cycle(m.selected, false)), NoAction)
    ensures e == KeyDown(Return) ==> r == (m, SelectOption(m))
  {
    match e
    case KeyDown(Down) => (Menu(Cycle(m.selected, true)), NoAction)
    case KeyDown(Up) => (Menu(Cycle(m.selected, false)), NoAction)
    case KeyDown(Return) => (m, SelectOption(m))
    case _ => (m, NoAction)
  }
}
