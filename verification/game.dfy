/** The mode logic of `Game` in main.py: construction, `new_game`,
    `start_game`, `show_options`, the event batch of `check_events`, the
    frame `update` and the dispatch of `run`, plus the damage and
    game-over reset of player.py that rebuilds the game. Rendering, sound,
    the weapon's animation and the object handler are not part of this
    model; each frame's inputs (events, keys, mouse delta, clock readings)
    are parameters. */
module GameLoop {
  import opened Common
  import opened Grid
  import opened Settings
  import opened Players
  import opened RayCasting
  import MainMenu

  /** The `state` string: 'MENU', 'PLAYING' or 'OPTIONS'. */
  datatype State = Menu | Playing | Options

  /** The parts of `Game` the modelled code reads or writes. `reloading`
      is `weapon.reloading`; `rays` and `objects` are the ray caster's
      `ray_casting_result` and `objects_to_render`. */
  datatype Game = Game(
    state: State,
    world: WorldMap,
    player: Player,
    reloading: bool,
    menu: MainMenu.Menu,
    globalTrigger: bool,
    deltaTime: int,
    rays: seq<RayResult>,
    objects: seq<RenderCommand>)

  /** A running game, or the end of the program: `sys.exit()` or an
      uncaught exception. */
  datatype Session = Running(game: Game) | Exited | Crashed(fault: Fault)

  /** What holds of every game the program can be in: the options mode is
      not entered and the menu's selection indexes its items. */
  predicate ValidGame(g: Game)
  {
    g.state != Options && MainMenu.ValidMenu(g.menu)
  }

  // ---------------------------------------------------------------------
  // Construction and reset

  /** `new_game` at time `now`: a fresh map, player, weapon flag, ray
      caster and menu. The mode, the trigger flag and the frame time are
      not touched. */
  function NewGame(cfg: Config, g: Game, now: int): (h: Game)
    ensures h.state == g.state && h.globalTrigger == g.globalTrigger && h.deltaTime == g.deltaTime
    ensures h.world == cfg.worldMap && h.reloading == cfg.weaponReloadingAtStart
    ensures h.player.health == cfg.playerMaxHealth && !h.player.shot && h.player.timePrev == now
    ensures h.player.x == cfg.playerX && h.player.y == cfg.playerY && h.player.angle == cfg.playerAngle
    ensures h.menu.selected == 0 && h.rays == [] && h.objects == []
  {
    g.(world := cfg.worldMap, player := NewPlayer(cfg, now), reloading := cfg.weaponReloadingAtStart,
       menu := MainMenu.NewMenu(), rays := [], objects := [])
  }

  /** A game rebuilt by `new_game` keeps nothing of the run it replaces
      except the mode, the trigger flag and the frame time. */
  lemma NewGameForgetsThePast(cfg: Config, g1: Game, g2: Game, now: int)
    ensures NewGame(cfg, g1, now) == NewGame(cfg, g2, now) <==>
              g1.state == g2.state && g1.globalTrigger == g2.globalTrigger && g1.deltaTime == g2.deltaTime
  {
  }

  /** `Game()` at time `now`: frame time 1, trigger clear, a new game, and
      only then the mode set to 'MENU'. */
  function Init(cfg: Config, now: int): (g: Game)
    ensures g.state == Menu && !g.globalTrigger && g.deltaTime == 1
    ensures g == NewGame(cfg, g, now)
    ensures ValidGame(g)
  {
    var blank := Game(Menu, map[], NewPlayer(cfg, now), false, MainMenu.NewMenu(), false, 1, [], []);
    NewGame(cfg, blank, now).(state := Menu)
  }

  /** `start_game`: the mode becomes 'PLAYING' and the game is rebuilt. */
  function StartGame(cfg: Config, g: Game, now: int): (h: Game)
    ensures h.state == Playing
    ensures h == NewGame(cfg, h, now)
    ensures h.globalTrigger == g.globalTrigger && h.deltaTime == g.deltaTime
  {
    NewGame(cfg, g.(state := Playing), now)
  }

  /** `show_options` is a stub: nothing changes, so 'OPTIONS' is never
      entered. */
  function ShowOptions(g: Game): (h: Game)
    ensures h == g
  {
    g
  }

  /** `get_damage` followed by `check_game_over`: health drops by exactly
      `damage`; below 1 the game is rebuilt at time `now`, in the same
      mode. */
  function GetDamage(cfg: Config, g: Game, damage: int, now: int): (h: Game)
    ensures h.state == g.state
    ensures g.player.health - damage >= 1 ==>
              h == g.(player := g.player.(health := g.player.health - damage))
    ensures g.player.health - damage < 1 ==>
              h == NewGame(cfg, g, now) && h.player.health == cfg.playerMaxHealth && !h.player.shot
  {
    var hurt := g.(player := g.player.(health := g.player.health - damage));
    if hurt.player.health < 1 then NewGame(cfg, hurt, now) else hurt
  }

  // ---------------------------------------------------------------------
  // Events while playing

  /** One pass of the loop in `check_events`: QUIT or ESCAPE ends the
      program, the timer event raises the trigger, and every other event
      also goes to the player's fire handler. */
  function GameEvent(g: Game, e: Event): (s: Session)
    ensures !s.Crashed?
    ensures s.Exited? <==> e == Quit || e == KeyDown(Escape)
    ensures s.Running? ==>
              && (s.game.globalTrigger <==> g.globalTrigger || e == GlobalTick)
              && (s.game.player, s.game.reloading) == SingleFireEvent(g.player, g.reloading, e)
              && s == Running(g.(globalTrigger := s.game.globalTrigger, player := s.game.player,
                                 reloading := s.game.reloading))
  {
    if e == Quit || e == KeyDown(Escape) then Exited
    else
      var g1 := if e == GlobalTick then g.(globalTrigger := true) else g;
      var (p, r) := SingleFireEvent(g1.player, g1.reloading, e);
      Running(g1.(player := p, reloading := r))
  }

  /** The events of one batch, in order. The fire latch makes the result
      independent of where in the batch the left-button press falls: a
      shot is recorded exactly when one was pending already or the weapon
      was ready and the batch holds a press. */
  function EventFold(g: Game, events: seq<Event>): (s: Session)
    decreases |events|
    ensures s.Exited? <==> Contains(events, Quit) || Contains(events, KeyDown(Escape))
    ensures !s.Crashed?
    ensures s.Running? ==>
              s.game == g.(globalTrigger := s.game.globalTrigger,
                           player := g.player.(shot := s.game.player.shot),
                           reloading := s.game.reloading)
    ensures s.Running? ==> (s.game.globalTrigger <==> g.globalTrigger || Contains(events, GlobalTick))
    ensures s.Running? ==>
              (s.game.player.shot <==> g.player.shot || (!g.reloading && Contains(events, MouseButtonDown(1))))
    ensures s.Running? ==>
              (s.game.reloading <==> g.reloading || (!g.player.shot && Contains(events, MouseButtonDown(1))))
  {
    if |events| == 0 then Running(g)
    else
      ContainsCons(events, Quit);
      ContainsCons(events, KeyDown(Escape));
      ContainsCons(events, GlobalTick);
      ContainsCons(events, MouseButtonDown(1));
      match GameEvent(g, events[0])
      case Running(g1) => EventFold(g1, events[1..])
      case other => other
  }

  /** `check_events`: the trigger is cleared first, so afterwards it is set
      exactly when this batch held the timer event; the fire flags follow
      the batch's left-button presses and nothing else changes. */
  function CheckEvents(g: Game, events: seq<Event>): (s: Session)
    ensures !s.Crashed?
    ensures s.Exited? <==> Contains(events, Quit) || Contains(events, KeyDown(Escape))
    ensures s.Running? ==> (s.game.globalTrigger <==> Contains(events, GlobalTick))
    ensures s.Running? ==> s.game.state == g.state && s.game.menu == g.menu && s.game.world == g.world
    ensures s.Running? ==>
              s.game == g.(globalTrigger := s.game.globalTrigger,
                           player := g.player.(shot := s.game.player.shot),
                           reloading := s.game.reloading)
    ensures s.Running? ==>
              (s.game.player.shot <==> g.player.shot || (!g.reloading && Contains(events, MouseButtonDown(1))))
    ensures s.Running? ==>
              (s.game.reloading <==> g.reloading || (!g.player.shot && Contains(events, MouseButtonDown(1))))
  {
    EventFold(g.(globalTrigger := false), events)
  }

  // ---------------------------------------------------------------------
  // Frame update

  /** `update`: the player first (movement with the sine and cosine of its
      heading, mouse look, recovery), then the ray caster from the updated
      player, then the frame time becomes the clock's `tick`. A zero frame
      time divides by zero in the collision check. */
  function Update(cfg: Config, g: Game, keys: Keys, trig: Trig, rawRel: int, now: int, tick: int): (s: Session)
    requires cfg.Valid()
    ensures g.deltaTime == 0 ==> s == Crashed(ZeroDivision)
    ensures g.deltaTime != 0 ==>
              var p := UpdatePlayer(cfg, g.world, g.player, keys, trig.sin(g.player.angle),
                                    trig.cos(g.player.angle), rawRel, now, g.deltaTime);
              (s.Running? <==> CastAllRays(cfg, g.world, p.x, p.y, p.angle, trig).Success?)
    ensures !s.Exited?
    ensures s.Running? ==>
              && s.game.player == UpdatePlayer(cfg, g.world, g.player, keys, trig.sin(g.player.angle),
                                              trig.cos(g.player.angle), rawRel, now, g.deltaTime)
              && Success(s.game.rays) == CastAllRays(cfg, g.world, s.game.player.x, s.game.player.y,
                                                     s.game.player.angle, trig)
              && s.game.objects == GetObjectsToRender(cfg, s.game.rays)
    ensures s.Running? ==>
              && |s.game.rays| == cfg.numRays && |s.game.objects| == cfg.numRays
              && s.game.deltaTime == tick
              && s == Running(g.(player := s.game.player, rays := s.game.rays,
                                 objects := s.game.objects, deltaTime := tick))
  {
    if g.deltaTime == 0 then Crashed(ZeroDivision)
    else
      var p := UpdatePlayer(cfg, g.world, g.player, keys, trig.sin(g.player.angle), trig.cos(g.player.angle),
                            rawRel, now, g.deltaTime);
      match CastAllRays(cfg, g.world, p.x, p.y, p.angle, trig)
      case Failure(f) => Crashed(f)
      case Success(rays) =>
        Running(g.(player := p, rays := rays, objects := GetObjectsToRender(cfg, rays), deltaTime := tick))
  }

  // ---------------------------------------------------------------------
  // The menu

  /** The loop of `MainMenu.update` over one batch. `handler` is the menu
      object whose loop is running. While `attached`, it is also the
      game's menu; once Start has rebuilt the game, the game holds a new
      menu and `handler` handles the rest of the batch on its own: its moves
      no longer show, but a later RETURN still dispatches. */
  function MenuFold(cfg: Config, g: Game, handler: MainMenu.Menu, attached: bool, events: seq<Event>, now: int)
    : (s: Session)
    requires MainMenu.ValidMenu(handler) && MainMenu.ValidMenu(g.menu)
    requires attached ==> g.menu == handler
    decreases |events|
    ensures !s.Crashed?
    ensures s.Running? ==> MainMenu.ValidMenu(s.game.menu)
    ensures s.Running? ==> s.game.state == g.state || s.game.state == Playing
    ensures s.Running? && s.game.state != Playing ==> s.game == g.(menu := s.game.menu)
    ensures s.Running? ==> s.game.globalTrigger == g.globalTrigger && s.game.deltaTime == g.deltaTime
    ensures s.Running? && s.game.state == Playing ==>
              g.state == Playing || s.game == NewGame(cfg, s.game, now)
    ensures s.Running? && !attached && g == NewGame(cfg, g, now) ==> s.game == NewGame(cfg, s.game, now)
    ensures s.Exited? ==> Contains(events, KeyDown(Return))
    ensures s.Running? && s.game.state == Playing && g.state != Playing ==> Contains(events, KeyDown(Return))
  {
    if |events| == 0 then Running(g)
    else
      ContainsCons(events, KeyDown(Return));
      var (m, action) := MainMenu.HandleEvent(handler, events[0]);
      var g1 := if attached then g.(menu := m) else g;
      match action
      case StartGame => MenuFold(cfg, StartGame(cfg, g1, now), m, false, events[1..], now)
      case ShowOptions => MenuFold(cfg, ShowOptions(g1), m, attached, events[1..], now)
      case ExitGame => Exited
      case NoAction => MenuFold(cfg, g1, m, attached, events[1..], now)
  }

  /** A batch without RETURN neither exits nor starts a game: only the
      menu changes, and while the handler is the game's own menu its
      selection ends DOWN-count minus UP-count steps further, modulo the
      number of items. */
  lemma {:induction false} MenuFoldWithoutReturn(cfg: Config, g: Game, handler: MainMenu.Menu, attached: bool,
                                                 events: seq<Event>, now: int)
    requires MainMenu.ValidMenu(handler) && MainMenu.ValidMenu(g.menu)
    requires attached ==> g.menu == handler
    ensures var s := MenuFold(cfg, g, handler, attached, events, now);
            !Contains(events, KeyDown(Return)) ==>
            && s.Running? && s.game == g.(menu := s.game.menu)
            && (attached ==>
                  s.game.menu.selected
                  == (handler.selected + Count(events, KeyDown(Down)) - Count(events, KeyDown(Up)))
                     % |MainMenu.MenuItems|)
    decreases |events|
  {
    if |events| > 0 && !Contains(events, KeyDown(Return)) {
      ContainsCons(events, KeyDown(Return));
      var (m, action) := MainMenu.HandleEvent(handler, events[0]);
      var g1 := if attached then g.(menu := m) else g;
      assert action == MainMenu.NoAction;
      MenuFoldWithoutReturn(cfg, g1, m, attached, events[1..], now);
      var shift := if events[0] == KeyDown(Down) then 1 else if events[0] == KeyDown(Up) then -1 else 0;
      SameRemainderAfterShift(m.selected, handler.selected + shift,
                              Count(events[1..], KeyDown(Down)) - Count(events[1..], KeyDown(Up)));
    }
  }

  /** An event other than RETURN only moves the handler (and, while
      attached, the game's menu with it); the fold goes on with the rest
      of the batch. */
  lemma {:induction false} MenuFoldStep(cfg: Config, g: Game, handler: MainMenu.Menu, attached: bool, events: seq<Event>, now: int)
    requires MainMenu.ValidMenu(handler) && MainMenu.ValidMenu(g.menu)
    requires attached ==> g.menu == handler
    requires |events| > 0 && events[0] != KeyDown(Return)
    ensures var m := MainMenu.HandleEvent(handler, events[0]).0;
            MenuFold(cfg, g, handler, attached, events, now)
            == MenuFold(cfg, if attached then g.(menu := m) else g, m, attached, events[1..], now)
  {
  }

  /** Where the selection ends after a RETURN-free batch, counted from
      the first event on or from the selection that event leaves. */
  lemma {:induction false} SelectionAfterStep(handler: MainMenu.Menu, pre: seq<Event>)
    requires MainMenu.ValidMenu(handler)
    requires |pre| > 0 && pre[0] != KeyDown(Return)
    ensures var m0 := MainMenu.HandleEvent(handler, pre[0]).0;
            (m0.selected + Count(pre[1..], KeyDown(Down)) - Count(pre[1..], KeyDown(Up))) % |MainMenu.MenuItems|
            == (handler.selected + Count(pre, KeyDown(Down)) - Count(pre, KeyDown(Up))) % |MainMenu.MenuItems|
  {
    var m0 := MainMenu.HandleEvent(handler, pre[0]).0;
    var shift := if pre[0] == KeyDown(Down) then 1 else if pre[0] == KeyDown(Up) then -1 else 0;
    var k := Count(pre[1..], KeyDown(Down)) - Count(pre[1..], KeyDown(Up));
    assert Count(pre, KeyDown(Down)) - Count(pre, KeyDown(Up)) == shift + k;
    if pre[0] == KeyDown(Down) {
      var c := MainMenu.Cycle(handler.selected, true);
      assert m0.selected == c && (c - handler.selected - 1) % |MainMenu.MenuItems| == 0;
    } else if pre[0] == KeyDown(Up) {
      var c := MainMenu.Cycle(handler.selected, false);
      assert m0.selected == c && (c - handler.selected + 1) % |MainMenu.MenuItems| == 0;
    } else {
      assert m0 == handler;
    }
    SameRemainderAfterShift(m0.selected, handler.selected + shift, k);
    assert handler.selected + Count(pre, KeyDown(Down)) - Count(pre, KeyDown(Up)) == handler.selected + shift + k;
    assert m0.selected + Count(pre[1..], KeyDown(Down)) - Count(pre[1..], KeyDown(Up)) == m0.selected + k;
  }

  /** The handler after the moves of a batch, each event handled in
      turn with its dispatch ignored. */
  function MenuAfter(handler: MainMenu.Menu, events: seq<Event>): (m: MainMenu.Menu)
    requires MainMenu.ValidMenu(handler)
    ensures MainMenu.ValidMenu(m)
    decreases |events|
  {
    if |events| == 0 then handler else MenuAfter(MainMenu.HandleEvent(handler, events[0]).0, events[1..])
  }

  /** Over a RETURN-free batch the selection moves DOWN-count minus
      UP-count steps, modulo the number of items. */
  lemma {:induction false} MenuAfterCounts(handler: MainMenu.Menu, pre: seq<Event>)
    requires MainMenu.ValidMenu(handler)
    ensures !Contains(pre, KeyDown(Return)) ==>
              MenuAfter(handler, pre).selected
              == (handler.selected + Count(pre, KeyDown(Down)) - Count(pre, KeyDown(Up))) % |MainMenu.MenuItems|
    decreases |pre|
  {
    if !Contains(pre, KeyDown(Return)) && |pre| > 0 {
      ContainsCons(pre, KeyDown(Return));
      MenuAfterCounts(MainMenu.HandleEvent(handler, pre[0]).0, pre[1..]);
      SelectionAfterStep(handler, pre);
    }
  }

  /** A RETURN-free start of a batch only moves the handler (and, while
      attached, the game's menu with it); the fold then goes on with the
      rest of the batch. */
  lemma {:induction false} MenuFoldSkipsPrefix(cfg: Config, g: Game, handler: MainMenu.Menu, attached: bool,
                                               pre: seq<Event>, rest: seq<Event>, now: int)
    requires MainMenu.ValidMenu(handler) && MainMenu.ValidMenu(g.menu)
    requires attached ==> g.menu == handler
    ensures !Contains(pre, KeyDown(Return)) ==>
              var m := MenuAfter(handler, pre);
              MenuFold(cfg, g, handler, attached, pre + rest, now)
              == MenuFold(cfg, if attached then g.(menu := m) else g, m, attached, rest, now)
    decreases |pre|
  {
    if !Contains(pre, KeyDown(Return)) {
      if |pre| == 0 {
        assert pre + rest == rest;
        assert (if attached then g.(menu := handler) else g) == g;
      } else {
        ContainsCons(pre, KeyDown(Return));
        assert (pre + rest)[0] == pre[0] && (pre + rest)[1..] == pre[1..] + rest;
        MenuFoldStep(cfg, g, handler, attached, pre + rest, now);
        var m0 := MainMenu.HandleEvent(handler, pre[0]).0;
        var g0 := if attached then g.(menu := m0) else g;
        MenuFoldSkipsPrefix(cfg, g0, m0, attached, pre[1..], rest, now);
        var m := MenuAfter(m0, pre[1..]);
        assert m == MenuAfter(handler, pre);
        assert (if attached then g0.(menu := m) else g0) == (if attached then g.(menu := m) else g);
      }
    }
  }

  /** A RETURN dispatches the handler's selected item and the fold goes on
      with the rest of the batch: on Start with a rebuilt game that no
      longer holds this handler, on Options with nothing changed, and on
      Exit not at all. */
  lemma {:induction false} MenuFoldAtReturn(cfg: Config, g: Game, handler: MainMenu.Menu, attached: bool, rest: seq<Event>, now: int)
    requires MainMenu.ValidMenu(handler) && MainMenu.ValidMenu(g.menu)
    requires attached ==> g.menu == handler
    ensures var s := MenuFold(cfg, g, handler, attached, [KeyDown(Return)] + rest, now);
            && (handler.selected == 0 ==> s == MenuFold(cfg, StartGame(cfg, g, now), handler, false, rest, now))
            && (handler.selected == 1 ==> s == MenuFold(cfg, g, handler, attached, rest, now))
            && (handler.selected == 2 ==> s == Exited)
  {
    assert ([KeyDown(Return)] + rest)[1..] == rest;
  }

  /** A batch split at its first RETURN: the events before it move the
      selection to `(start + #DOWN - #UP) mod 3`, the RETURN dispatches
      that item, and the fold continues over the events after it
      (detached from the game after a Start). */
  lemma {:induction false} MenuFoldAtFirstReturn(cfg: Config, g: Game, handler: MainMenu.Menu, attached: bool,
                              pre: seq<Event>, rest: seq<Event>, now: int)
    requires MainMenu.ValidMenu(handler) && MainMenu.ValidMenu(g.menu)
    requires attached ==> g.menu == handler
    ensures !Contains(pre, KeyDown(Return)) ==>
              var m := MainMenu.Menu((handler.selected + Count(pre, KeyDown(Down)) - Count(pre, KeyDown(Up)))
                                     % |MainMenu.MenuItems|);
              var g1 := if attached then g.(menu := m) else g;
              var s := MenuFold(cfg, g, handler, attached, pre + [KeyDown(Return)] + rest, now);
              && (m.selected == 0 ==> s == MenuFold(cfg, StartGame(cfg, g1, now), m, false, rest, now))
              && (m.selected == 1 ==> s == MenuFold(cfg, g1, m, attached, rest, now))
              && (m.selected == 2 ==> s == Exited)
  {
    if !Contains(pre, KeyDown(Return)) {
      assert pre + [KeyDown(Return)] + rest == pre + ([KeyDown(Return)] + rest);
      MenuFoldSkipsPrefix(cfg, g, handler, attached, pre, [KeyDown(Return)] + rest, now);
      MenuAfterCounts(handler, pre);
      var m := MenuAfter(handler, pre);
      assert m == MainMenu.Menu((handler.selected + Count(pre, KeyDown(Down)) - Count(pre, KeyDown(Up)))
                                % |MainMenu.MenuItems|);
      MenuFoldAtReturn(cfg, if attached then g.(menu := m) else g, m, attached, rest, now);
    }
  }

  /** Numbers congruent modulo the number of menu items stay congruent
      after the same shift. */
  lemma {:induction false} SameRemainderAfterShift(a: int, b: int, k: int)
    requires (a - b) % |MainMenu.MenuItems| == 0
    ensures (a + k) % |MainMenu.MenuItems| == (b + k) % |MainMenu.MenuItems|
  {
  }

  /** `main_menu.update()` on the game's own menu. */
  function MenuUpdate(cfg: Config, g: Game, events: seq<Event>, now: int): (s: Session)
    requires MainMenu.ValidMenu(g.menu)
    ensures !s.Crashed?
    ensures s.Running? ==> MainMenu.ValidMenu(s.game.menu)
    ensures s.Running? && s.game.state != Playing ==> s.game == g.(menu := s.game.menu)
    ensures s.Running? && s.game.state == Playing && g.state != Playing ==>
              s.game == NewGame(cfg, s.game, now)
              && s.game.globalTrigger == g.globalTrigger && s.game.deltaTime == g.deltaTime
    ensures s.Exited? ==> Contains(events, KeyDown(Return))
    ensures s.Running? && s.game.state == Playing && g.state != Playing ==> Contains(events, KeyDown(Return))
    ensures !Contains(events, KeyDown(Return)) ==>
              && s.Running?
              && s.game == g.(menu := MainMenu.Menu(s.game.menu.selected))
              && s.game.menu.selected
                 == (g.menu.selected + Count(events, KeyDown(Down)) - Count(events, KeyDown(Up)))
                    % |MainMenu.MenuItems|
  {
    MenuFoldWithoutReturn(cfg, g, g.menu, true, events, now);
    MenuFold(cfg, g, g.menu, true, events, now)
  }

  /** From the initial menu, RETURN starts a game, DOWN then RETURN
      (Options) stays in the menu on the second item, and DOWN, DOWN,
      RETURN exits. */
  lemma MenuScenarios(cfg: Config, now: int, later: int)
    ensures var g := Init(cfg, now);
            var s := MenuUpdate(cfg, g, [KeyDown(Return)], later);
            s.Running? && s.game.state == Playing && s.game.player.timePrev == later
    ensures var g := Init(cfg, now);
            MenuUpdate(cfg, g, [KeyDown(Down), KeyDown(Return)], later)
            == Running(g.(menu := MainMenu.Menu(1)))
    ensures MenuUpdate(cfg, Init(cfg, now), [KeyDown(Down), KeyDown(Down), KeyDown(Return)], later) == Exited
    ensures MenuUpdate(cfg, Init(cfg, now), [KeyDown(Return), KeyDown(Down), KeyDown(Down), KeyDown(Return)], later)
            == Exited
    ensures var s := MenuUpdate(cfg, Init(cfg, now), [KeyDown(Return), KeyDown(Down)], later);
            s.Running? && s.game.state == Playing && s.game.menu.selected == 0
    ensures var s := MenuUpdate(cfg, Init(cfg, now), [KeyDown(Down), KeyDown(Return), KeyDown(Up), KeyDown(Return)],
                                later);
            s.Running? && s.game.state == Playing
  {
  }

  // ---------------------------------------------------------------------
  // The main loop

  /** The inputs of one pass of the `run` loop. */
  datatype Frame = Frame(events: seq<Event>, keys: Keys, rawRel: int, now: int, tick: int)

  /** One pass of `run`: menu work in 'MENU', events then update in
      'PLAYING', nothing in any other mode. */
  function RunFrame(cfg: Config, trig: Trig, g: Game, f: Frame): (s: Session)
    requires cfg.Valid() && MainMenu.ValidMenu(g.menu)
    ensures g.state == Options ==> s == Running(g)
    ensures g.state == Menu && s.Running? && s.game.state == Menu ==> s.game == g.(menu := s.game.menu)
    ensures g.state == Playing && s.Running? ==> s.game.state == Playing && s.game.menu == g.menu
    ensures ValidGame(g) && s.Running? ==> ValidGame(s.game)
    ensures g.state == Menu ==> s == MenuUpdate(cfg, g, f.events, f.now)
    ensures g.state == Playing ==>
              s == match CheckEvents(g, f.events)
                   case Running(g1) => Update(cfg, g1, f.keys, trig, f.rawRel, f.now, f.tick)
                   case other => other
    ensures g.state == Playing ==>
              && (s.Exited? <==> Contains(f.events, Quit) || Contains(f.events, KeyDown(Escape)))
              && (s.Running? ==> s.game.deltaTime == f.tick
                                 && (s.game.globalTrigger <==> Contains(f.events, GlobalTick)))
  {
    match g.state
    case Menu => MenuUpdate(cfg, g, f.events, f.now)
    case Playing =>
      (match CheckEvents(g, f.events)
       case Running(g1) => Update(cfg, g1, f.keys, trig, f.rawRel, f.now, f.tick)
       case other => other)
    case Options => Running(g)
  }

  /** The `run` loop over a sequence of frames, stopping at exit or crash. */
  function Run(cfg: Config, trig: Trig, s: Session, frames: seq<Frame>): (r: Session)
    requires cfg.Valid()
    requires s.Running? ==> ValidGame(s.game)
    decreases |frames|
    ensures r.Running? ==> ValidGame(r.game)
    ensures !s.Running? ==> r == s
  {
    if |frames| == 0 || !s.Running? then s
    else Run(cfg, trig, RunFrame(cfg, trig, s.game, frames[0]), frames[1..])
  }

  /** Once playing, the program stays playing: no frame returns to the
      menu or enters the options mode. */
  lemma {:induction false} PlayingIsNeverLeft(cfg: Config, trig: Trig, s: Session, frames: seq<Frame>)
    requires cfg.Valid()
    requires s.Running? && ValidGame(s.game) && s.game.state == Playing
    ensures var r := Run(cfg, trig, s, frames);
            r.Running? ==> r.game.state == Playing
    decreases |frames|
  {
    if |frames| > 0 {
      var s1 := RunFrame(cfg, trig, s.game, frames[0]);
      if s1.Running? {
        PlayingIsNeverLeft(cfg, trig, s1, frames[1..]);
      }
    }
  }

  /** From construction, every running state of the program is a valid
      game: the options mode is never entered and the menu selection stays
      in range. */
  lemma OptionsNeverEntered(cfg: Config, trig: Trig, now: int, frames: seq<Frame>)
    requires cfg.Valid()
    ensures var r := Run(cfg, trig, Running(Init(cfg, now)), frames);
            r.Running? ==> r.game.state != Options && 0 <= r.game.menu.selected < 3
  {
  }
}
