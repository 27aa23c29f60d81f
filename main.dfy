/** `Main`: the game's pause flag, level number, level-loaded flag and active
    camera index, the level content it rebuilds for levels 1 and 2, and the
    events it publishes at start-up and on every frame. */
module MainGame {
  import opened Common
  import opened Events
  import Levels
  import Menu
  import Sound
  import DeathCount
  import GameState

  /** The background song requested at the end of initialization. */
  const GameSong: Event := Simple(SoundCategory, OnPlay2D, [PString("GameSong")])

  /** The decorator `InitDecorators` adds to level 1: a clone of the lit textured
      cube archetype, whose type is `Decorator`, renamed "Cube1". */
  const Cube1: Actor := Actor("Cube1", Decorator, PrimitiveObject)

  /** The first-match request of the demo block: make the first decorator whose
      ID equals "cube1" drawn and updated. */
  const DemoQuery: FirstMatchQuery := FirstMatchQuery({Drawn, Update}, Decorator, "cube1")
  const DemoEvent: Event := Event(ObjectCategory, OnApplyActionToFirstMatchActor, [], Some(DemoQuery))

  /** The two placements each level loads an image with: 10 by 10 world units
      per pixel, at height 15 and at height 0, with no offset. */
  const Upper: Levels.Placement := Levels.Placement(10.0, 10.0, 15.0, Zero)
  const Lower: Levels.Placement := Levels.Placement(10.0, 10.0, 0.0, Zero)

  /** The level images "level1_1", "level1_2", "level2_1" and "level2_2". */
  datatype LevelImages = LevelImages(level1Upper: Levels.Texture, level1Lower: Levels.Texture,
                                     level2Upper: Levels.Texture, level2Lower: Levels.Texture)

  predicate ImagesWellFormed(im: LevelImages)
  {
    Levels.WellFormed(im.level1Upper) && Levels.WellFormed(im.level1Lower) &&
    Levels.WellFormed(im.level2Upper) && Levels.WellFormed(im.level2Lower)
  }

  /** The hand-built actors of the levels: the helpers, skybox and ground both
      levels add, and each level's enemy, pickups and player. */
  datatype Scenery = Scenery(backdrop: seq<Actor>, level1: seq<Actor>, level2: seq<Actor>)

  /** Loaded actors as the registry holds them. */
  function AsActors(s: seq<Levels.LoadedActor>): (r: seq<Actor>)
    ensures |r| == |s| && forall i :: 0 <= i < |s| ==> r[i] == s[i].AsActor()
    decreases |s|
  {
    if |s| == 0 then [] else [s[0].AsActor()] + AsActors(s[1..])
  }

  /** What one fresh loader produces from a level's two images: the upper image
      numbered from 1, then the lower one numbered on from there. */
  function LoadedPair(upper: Levels.Texture, lower: Levels.Texture): seq<Levels.LoadedActor>
    requires Levels.WellFormed(upper) && Levels.WellFormed(lower)
  {
    var first := Levels.Scan(upper, Upper, |upper.data|, 1);
    first + Levels.Scan(lower, Lower, |lower.data|, 1 + |first|)
  }

  /** The registry `InitLevel` builds for a level, or `None` for a level it has no branch for. */
  function LevelContent(level: int, sc: Scenery, im: LevelImages): (r: Option<seq<Actor>>)
    requires ImagesWellFormed(im)
    ensures r.Some? <==> level == 1 || level == 2
  {
    if level == 1 then
      Some(sc.backdrop + [Cube1] + sc.level1 + AsActors(LoadedPair(im.level1Upper, im.level1Lower)))
    else if level == 2 then
      Some(sc.backdrop + sc.level2 + AsActors(LoadedPair(im.level2Upper, im.level2Lower)))
    else None
  }

  /** No actor a loader produces from a level's images is a plain decorator. */
  lemma LoadedPairHasNoDecorator(upper: Levels.Texture, lower: Levels.Texture)
    requires Levels.WellFormed(upper) && Levels.WellFormed(lower)
    ensures forall a :: a in AsActors(LoadedPair(upper, lower)) ==> a.actorType != Decorator
  {
    var first := Levels.Scan(upper, Upper, |upper.data|, 1);
    Levels.ScanIsCollidable(upper, Upper, |upper.data|, 1);
    Levels.ScanIsCollidable(lower, Lower, |lower.data|, 1 + |first|);
    var s := LoadedPair(upper, lower);
    assert forall x :: x in s ==> x.actorType != Decorator;
    assert forall i :: 0 <= i < |s| ==> AsActors(s)[i].actorType == s[i].actorType;
  }

  /** The demo request never finds its target among the game's own actors: the
      decorator is "Cube1" and the comparison is case-sensitive, and no loaded
      actor is a plain decorator. A match can only be a hand-built actor of the scenery. */
  lemma DemoQueryNeverMatches(level: int, sc: Scenery, im: LevelImages, a: Actor)
    requires ImagesWellFormed(im) && LevelContent(level, sc, im).Some?
    requires a in LevelContent(level, sc, im).value && Matches(DemoQuery, a)
    ensures a in sc.backdrop || a in sc.level1 || a in sc.level2
    ensures a != Cube1
  {
    assert Cube1.id[0] != DemoQuery.matchId[0];
    if level == 1 {
      LoadedPairHasNoDecorator(im.level1Upper, im.level1Lower);
    } else {
      LoadedPairHasNoDecorator(im.level2Upper, im.level2Lower);
    }
  }

  /** `InitCameras3D`: camera 0, or camera 1 on level 2. */
  function CameraFor(level: int): (r: int)
    ensures r == 0 || r == 1
    ensures r == 1 <==> level == 2
  {
    if level == 2 then 1 else 0
  }

  datatype MainState = MainState(isPaused: bool, level: int, levelLoaded: bool, cameraIndex: int,
                                 registry: seq<Actor>)

  /** `InitLevel`: levels 1 and 2 replace the registry by their content, any other
      level leaves it alone; the level counts as loaded either way. */
  function AfterInitLevel(s: MainState, sc: Scenery, im: LevelImages): (r: MainState)
    requires ImagesWellFormed(im)
    ensures r.levelLoaded
    ensures r.registry == (if IsLevel1or2(s.level) then LevelContent(s.level, sc, im).value else s.registry)
    ensures r.isPaused == s.isPaused && r.level == s.level && r.cameraIndex == s.cameraIndex
  {
    match LevelContent(s.level, sc, im)
    case Some(content) => s.(registry := content, levelLoaded := true)
    case None => s.(levelLoaded := true)
  }

  predicate IsLevel1or2(level: int)
  {
    level == 1 || level == 2
  }

  /** `HandleEvent`: a Player win moves to the level in its parameter, marks it
      not loaded and switches to camera 1; nothing else changes these fields. */
  function AfterEvent(s: MainState, e: Event): (r: MainState)
    requires e.category == PlayerCategory && e.action == OnWin ==> DeathCount.CountParam(e)
    ensures e.category == PlayerCategory && e.action == OnWin ==>
              r == s.(level := e.params[0].n, levelLoaded := false, cameraIndex := 1)
    ensures !(e.category == PlayerCategory && e.action == OnWin) ==> r == s
  {
    if e.category == PlayerCategory && e.action == OnWin then
      s.(level := e.params[0].n, levelLoaded := false, cameraIndex := 1)
    else s
  }

  /** The menu event the Escape key publishes, carrying the game time. */
  function EscapeEvent(wasPaused: bool): Event
  {
    Simple(MenuCategory, if wasPaused then OnPause else OnPlay, [POpaque])
  }

  datatype Step = Step(state: MainState, published: seq<Event>)

  /** One `Update`: Escape flips the pause flag and asks the menu to follow, the
      demo block (when compiled in) sends its first-match request while not
      paused, and a level not yet loaded is loaded. */
  function Frame(s: MainState, escape: bool, demo: bool, sc: Scenery, im: LevelImages): (r: Step)
    requires ImagesWellFormed(im)
  {
    var keyed := if escape then [EscapeEvent(s.isPaused)] else [];
    var paused := if escape then !s.isPaused else s.isPaused;
    var demoed := if demo && !paused then [DemoEvent] else [];
    var t := s.(isPaused := paused);
    Step(if !t.levelLoaded then AfterInitLevel(t, sc, im) else t, keyed + demoed)
  }

  /** Escape flips the pause flag and publishes first the pause event when the
      game was paused, the play event when it was not; pressing it on two
      frames restores the flag. */
  lemma EscapeToggles(s: MainState, demo: bool, sc: Scenery, im: LevelImages)
    requires ImagesWellFormed(im)
    ensures var f := Frame(s, true, demo, sc, im);
            f.state.isPaused == !s.isPaused && |f.published| >= 1 &&
            f.published[0].category == MenuCategory &&
            (f.published[0].action == OnPause <==> s.isPaused) &&
            (f.published[0].action == OnPlay <==> !s.isPaused) &&
            Frame(f.state, true, demo, sc, im).state.isPaused == s.isPaused
    ensures Frame(s, false, demo, sc, im).state.isPaused == s.isPaused
  {
  }

  /** With the demo block, every frame that ends unpaused sends exactly one
      first-match request; without it, or when paused, none. */
  lemma DemoOncePerUnpausedFrame(s: MainState, escape: bool, demo: bool, sc: Scenery, im: LevelImages)
    requires ImagesWellFormed(im)
    ensures var f := Frame(s, escape, demo, sc, im);
            multiset(f.published)[DemoEvent] == (if demo && !f.state.isPaused then 1 else 0)
  {
    var f := Frame(s, escape, demo, sc, im);
    var keyed := if escape then [EscapeEvent(s.isPaused)] else [];
    assert forall e :: e in keyed ==> e.category == MenuCategory;
    assert DemoEvent !in keyed;
    assert multiset(f.published)[DemoEvent] == multiset(keyed)[DemoEvent] +
           multiset(if demo && !f.state.isPaused then [DemoEvent] else [])[DemoEvent];
  }

  /** A frame always ends with the level loaded, and reloads exactly when it was not loaded. */
  lemma FrameLoadsLevel(s: MainState, escape: bool, demo: bool, sc: Scenery, im: LevelImages)
    requires ImagesWellFormed(im)
    ensures Frame(s, escape, demo, sc, im).state.levelLoaded
    ensures s.levelLoaded ==> Frame(s, escape, demo, sc, im).state.registry == s.registry
    ensures !s.levelLoaded && IsLevel1or2(s.level) ==>
              Frame(s, escape, demo, sc, im).state.registry == LevelContent(s.level, sc, im).value
  {
  }

  /** A win followed by the next frame: the new level is on camera 1 and loaded,
      its content in the registry when it is level 1 or 2, the old registry kept otherwise. */
  lemma WinThenFrame(s: MainState, n: int, demo: bool, sc: Scenery, im: LevelImages)
    requires ImagesWellFormed(im)
    ensures var w := AfterEvent(s, Simple(PlayerCategory, OnWin, [PInt(n)]));
            var f := Frame(w, false, demo, sc, im).state;
            f.level == n && f.cameraIndex == 1 && f.levelLoaded && f.isPaused == s.isPaused &&
            f.registry == (if IsLevel1or2(n) then LevelContent(n, sc, im).value else s.registry)
  {
  }

  /** The subscriptions made while the components are constructed: the game
      itself and the menu to Player events, the death-count controller to UI events. */
  const ConstructedSubscriptions: seq<Subscription> :=
    [Subscription(PlayerCategory, MainHandler), Subscription(PlayerCategory, MenuHandler),
     Subscription(UICategory, DeathCountHandler)]

  /** The subscriptions made when the components start, in the order they were
      added: the menu to Menu events, the sound manager, the game-state manager. */
  const StartedSubscriptions: seq<Subscription> :=
    [Subscription(MenuCategory, MenuHandler), Subscription(SoundCategory, SoundHandler),
     Subscription(UICategory, GameStateHandler)]

  /** Every subscription initialization makes, in order. */
  const InitialSubscriptions: seq<Subscription> := ConstructedSubscriptions + StartedSubscriptions

  /** Nobody listens to the End category, so the game's End/OnGameOver branch is never reached. */
  lemma EndUnrouted()
    ensures Receivers(InitialSubscriptions, EndCategory) == []
  {
    ReceiversConcat(ConstructedSubscriptions, StartedSubscriptions, EndCategory);
  }

  /** Player events reach the game and then the menu, and not the game-state
      manager, whose OnWin branch is therefore never reached. */
  lemma PlayerRouting()
    ensures Receivers(InitialSubscriptions, PlayerCategory) == [MainHandler, MenuHandler]
  {
    ReceiversConcat(ConstructedSubscriptions, StartedSubscriptions, PlayerCategory);
  }

  /** UI events reach the death-count controller before the game-state manager. */
  lemma UIRouting()
    ensures Receivers(InitialSubscriptions, UICategory) == [DeathCountHandler, GameStateHandler]
  {
    ReceiversConcat(ConstructedSubscriptions, StartedSubscriptions, UICategory);
  }

  lemma SoundRouting()
    ensures Receivers(InitialSubscriptions, SoundCategory) == [SoundHandler]
  {
    ReceiversConcat(ConstructedSubscriptions, StartedSubscriptions, SoundCategory);
  }

  /** The pause and play requests on the Menu category, published by the game's
      Escape key and the menu's own M key, reach the menu and nobody else here. */
  lemma MenuRouting()
    ensures Receivers(InitialSubscriptions, MenuCategory) == [MenuHandler]
  {
    ReceiversConcat(ConstructedSubscriptions, StartedSubscriptions, MenuCategory);
  }

  /** A UI event handed to `hs` in order, for the two handlers that write the
      shared death-count text (the others do not read UI death-count changes). */
  function DeliverUI(hs: seq<Handler>, t: GameState.Tally, e: Event): GameState.Tally
    requires GameState.WellShaped(e) && (e.action == OnDeathCountChange ==> DeathCount.CountParam(e))
    decreases |hs|
  {
    if |hs| == 0 then t
    else
      var next := if hs[0] == DeathCountHandler then t.(text := DeathCount.ControllerText(t.text, e))
                  else if hs[0] == GameStateHandler then GameState.StateAfter(t, e)
                  else t;
      DeliverUI(hs[1..], next, e)
  }

  /** With the game's routing, a death-count change leaves the shared text
      showing the game-state manager's running total, not the change alone. */
  lemma DeathCountShowsTotal(t: GameState.Tally, e: Event)
    requires e.category == UICategory && e.action == OnDeathCountChange && DeathCount.CountParam(e)
    ensures DeathCount.ShowsCount(DeliverUI(Receivers(InitialSubscriptions, UICategory), t, e).text,
                                  t.deathCount + e.params[0].n)
  {
    UIRouting();
    var t1 := t.(text := DeathCount.ControllerText(t.text, e));
    var t2 := GameState.StateAfter(t1, e);
    assert DeliverUI([GameStateHandler], t1, e) == DeliverUI([], t2, e);
    assert DeliverUI([DeathCountHandler, GameStateHandler], t, e) == DeliverUI([GameStateHandler], t1, e);
    GameState.SharedTextOrder(t, e);
  }

  /** `InitEventDispatcher`, `InitManagers`, `InitUI` and `InitMenu`, by the
      components they create and the subscriptions those make. */
  method InitComponents() returns (d: EventDispatcher, m: Menu.MyMenuManager, sm: Sound.SoundManager,
                                   text: DeathCount.UITextObject,
                                   controller: DeathCount.DeathCountController,
                                   gs: GameState.MyGameStateManager)
    ensures fresh(d) && fresh(m) && fresh(sm) && fresh(text) && fresh(controller) && fresh(gs)
    ensures d.log == []
    ensures d.subscriptions == ConstructedSubscriptions
    ensures m.State() == Menu.MenuState(Menu.Shown, "main", false) && m.dispatcher == d
    ensures sm.dispatcher == d && gs.dispatcher == d
    ensures text.text == "Death Count : 0"
    ensures gs.textObject == text && controller.target == text
    ensures gs.deathCount == 0 && gs.level == 1
  {
    d := new EventDispatcher();
    d.Subscribe(PlayerCategory, MainHandler);
    m := new Menu.MyMenuManager(Menu.Shown, d);
    sm := new Sound.SoundManager({StatusFlag.Update}, d);
    text := new DeathCount.UITextObject("deathCount", "Death Count : 0");
    controller := new DeathCount.DeathCountController("deathCountController", text, d);
    gs := new GameState.MyGameStateManager(Off, text, d);
    m.SetScene("main");
  }

  class Game {
    var isPaused: bool
    var level: int
    var levelLoaded: bool
    var cameraIndex: int
    /** The object manager's actors. */
    var registry: seq<Actor>
    const dispatcher: EventDispatcher
    const menu: Menu.MyMenuManager
    const sound: Sound.SoundManager
    const deathCountText: DeathCount.UITextObject
    const deathCountController: DeathCount.DeathCountController
    const gameState: GameState.MyGameStateManager
    /** Whether the demo block is compiled in. */
    const demo: bool
    const scenery: Scenery
    const images: LevelImages

    function State(): MainState
      reads this
    {
      MainState(isPaused, level, levelLoaded, cameraIndex, registry)
    }

    /** `Initialize`, with the content of the helper `Init*` methods given as
        `scenery` and the level images as `images`. */
    constructor Initialize(scenery: Scenery, images: LevelImages, demo: bool)
      requires ImagesWellFormed(images)
      ensures State() == MainState(false, 1, true, 0, LevelContent(1, scenery, images).value)
      ensures dispatcher.log == [GameSong]
      ensures dispatcher.subscriptions == InitialSubscriptions
      ensures menu.State() == Menu.MenuState(Menu.Shown, "main", false)
      ensures deathCountText.text == "Death Count : 0"
      ensures gameState.textObject == deathCountText && deathCountController.target == deathCountText
      ensures this.scenery == scenery && this.images == images && this.demo == demo
    {
      isPaused := false;
      level := 1;
      levelLoaded := false;
      cameraIndex := 0;
      registry := [];
      this.scenery := scenery;
      this.images := images;
      this.demo := demo;
      var d, m, sm, text, controller, gs := InitComponents();
      dispatcher := d;
      menu := m;
      sound := sm;
      deathCountText := text;
      deathCountController := controller;
      gameState := gs;
      new;
      InitLevel();
      InitCameras3D();
      dispatcher.Publish(GameSong);
      StartComponents();
    }

    /** What `base.Initialize` does for this core: the menu, the sound manager
        and the game-state manager, in the order they were added as components,
        subscribe to their categories. */
    method StartComponents()
      requires menu.dispatcher == dispatcher && sound.dispatcher == dispatcher && gameState.dispatcher == dispatcher
      modifies dispatcher`subscriptions
      ensures dispatcher.subscriptions == old(dispatcher.subscriptions) + StartedSubscriptions
    {
      menu.SubscribeToEvents();
      sound.SubscribeToEvents();
      gameState.SubscribeToEvents();
    }

    method InitLevel()
      requires ImagesWellFormed(images)
      modifies this`registry, this`levelLoaded
      ensures State() == AfterInitLevel(old(State()), scenery, images)
    {
      if level == 1 {
        var loader := new Levels.LevelLoader();
        var first := loader.Load(images.level1Upper, Upper);
        var second := loader.Load(images.level1Lower, Lower);
        registry := scenery.backdrop + [Cube1] + scenery.level1 + AsActors(first + second);
      } else if level == 2 {
        var loader := new Levels.LevelLoader();
        var first := loader.Load(images.level2Upper, Upper);
        var second := loader.Load(images.level2Lower, Lower);
        registry := scenery.backdrop + scenery.level2 + AsActors(first + second);
      }
      levelLoaded := true;
    }

    method InitCameras3D()
      modifies this`cameraIndex
      ensures cameraIndex == CameraFor(level)
    {
      cameraIndex := 0;
      if level == 2 {
        cameraIndex := 1;
      }
    }

    method HandleEvent(e: Event)
      requires e.category == PlayerCategory && e.action == OnWin ==> DeathCount.CountParam(e)
      modifies this`level, this`levelLoaded, this`cameraIndex, menu`scene
      ensures State() == AfterEvent(old(State()), e)
      ensures menu.scene == (if e.category == EndCategory && e.action == OnGameOver then "end" else old(menu.scene))
    {
      if e.category == PlayerCategory {
        if e.action == OnWin {
          level := e.params[0].n;
          levelLoaded := false;
          cameraIndex := 1;
        }
      } else if e.category == EndCategory {
        if e.action == OnGameOver {
          menu.SetScene("end");
        }
      }
    }

    /** `Update`, with `escape` the first press of Escape in this frame; the other demo keys are not pressed. */
    method Update(escape: bool)
      requires ImagesWellFormed(images)
      modifies this`isPaused, this`registry, this`levelLoaded, dispatcher`log
      ensures State() == Frame(old(State()), escape, demo, scenery, images).state
      ensures dispatcher.log == old(dispatcher.log) + Frame(old(State()), escape, demo, scenery, images).published
    {
      ghost var s0 := State();
      ghost var f := Frame(s0, escape, demo, scenery, images);
      if escape {
        if isPaused {
          dispatcher.Publish(Simple(MenuCategory, OnPause, [POpaque]));
        } else {
          dispatcher.Publish(Simple(MenuCategory, OnPlay, [POpaque]));
        }
        isPaused := !isPaused;
      }
      if demo && !isPaused {
        dispatcher.Publish(DemoEvent);
      }
      assert dispatcher.log == old(dispatcher.log) + f.published;
      assert State() == s0.(isPaused := f.state.isPaused);
      if !levelLoaded {
        InitLevel();
      }
    }
  }
}
