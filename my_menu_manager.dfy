/** `MyMenuManager`: shows and hides the menu in answer to menu and game-over
    events, turns button clicks into events, and toggles the menu on the M key. */
module Menu {
  import opened Common
  import opened Events

  /** The click sound every button but "controls" asks for. */
  const ButtonClick: Event := Simple(SoundCategory, OnPlay2D, [PString("buttonClick")])
  /** Published with a `null` parameter array. */
  const ShowMenu: Event := Simple(MenuCategory, OnPause, [])
  const ShowGame: Event := Simple(MenuCategory, OnPlay, [])
  /** `Drawn | Update`. */
  const Shown: Status := {Drawn, Update}

  /** The manager's status, its current scene (`""` before any scene is set)
      and whether it has asked the game to exit. */
  datatype MenuState = MenuState(status: Status, scene: string, exitRequested: bool)

  /** `HandleEvent`: a menu pause shows the menu, a menu play hides it, a
      game over shows it on the "end" scene; nothing else has an effect. */
  function AfterEvent(s: MenuState, e: Event): (r: MenuState)
    ensures r.exitRequested == s.exitRequested
    ensures e.category == MenuCategory && e.action == OnPause ==> r == s.(status := Shown)
    ensures e.category == MenuCategory && e.action == OnPlay ==> r == s.(status := Off)
    ensures e.category == PlayerCategory && e.action == OnGameOver ==> r == s.(status := Shown, scene := "end")
    ensures (!(e.category == MenuCategory && e.action in {OnPause, OnPlay}) &&
             !(e.category == PlayerCategory && e.action == OnGameOver)) ==> r == s
  {
    if e.category == MenuCategory then
      if e.action == OnPause then s.(status := Shown)
      else if e.action == OnPlay then s.(status := Off)
      else s
    else if e.category == PlayerCategory then
      if e.action == OnGameOver then s.(status := Shown, scene := "end") else s
    else s
  }

  /** An effect on the menu state together with the events published on the way. */
  datatype Effect = Effect(state: MenuState, published: seq<Event>)

  /** `HandleClickedButton`, by the button's ID. */
  function Clicked(s: MenuState, id: string): (r: Effect)
    ensures r.state.status == s.status
    ensures r.state.scene == (if id == "controls" then "controls" else s.scene)
    ensures r.state.exitRequested <==> s.exitRequested || id == "End_Button" || id == "exit"
    ensures id == "play" ==> r.published == [ButtonClick, ShowGame]
    ensures id == "End_Button" || id == "exit" ==> r.published == [ButtonClick]
    ensures r.published == [] <==> id != "play" && id != "End_Button" && id != "exit"
  {
    if id == "play" then Effect(s, [ButtonClick, ShowGame])
    else if id == "End_Button" || id == "exit" then Effect(s.(exitRequested := true), [ButtonClick])
    else if id == "controls" then Effect(s.(scene := "controls"), [])
    else Effect(s, [])
  }

  /** A drawn 2D actor of the active scene, as the mouse handler sees it:
      its ID, whether it is a `UIButtonObject`, and whether its bounds contain the mouse. */
  datatype Element = Element(id: string, isButton: bool, containsMouse: bool)

  predicate Hit(el: Element, clicked: bool)
  {
    el.isButton && el.containsMouse && clicked
  }

  /** The `foreach` of `HandleMouse` over the active list, element by element. */
  function MouseRun(s: MenuState, elements: seq<Element>, clicked: bool): (r: Effect)
    ensures r.state.status == s.status
    ensures forall i :: 0 <= i < |r.published| ==> r.published[i] in {ButtonClick, ShowGame}
    ensures r.state.exitRequested <==>
              s.exitRequested ||
              exists i :: 0 <= i < |elements| && Hit(elements[i], clicked) && elements[i].id in {"End_Button", "exit"}
    decreases |elements|
  {
    if |elements| == 0 then Effect(s, [])
    else
      var before := MouseRun(s, elements[..|elements| - 1], clicked);
      var last := elements[|elements| - 1];
      var step := if Hit(last, clicked) then Clicked(before.state, last.id) else Effect(before.state, []);
      assert forall i :: 0 <= i < |elements| - 1 ==> elements[..|elements| - 1][i] == elements[i];
      Effect(step.state, before.published + step.published)
  }

  /** Without a click the mouse does nothing, whatever is under it. */
  lemma {:induction false} NoClickNoEffect(s: MenuState, elements: seq<Element>)
    ensures MouseRun(s, elements, false) == Effect(s, [])
    decreases |elements|
  {
    if |elements| > 0 {
      NoClickNoEffect(s, elements[..|elements| - 1]);
    }
  }

  /** `HandleKeyboard`: on the first press of M, a hidden (`Off`) menu asks to be
      shown and any other status asks for the game. */
  function KeyboardEvents(status: Status, mPressed: bool): (r: seq<Event>)
    ensures |r| == (if mPressed then 1 else 0)
    ensures mPressed ==> (r[0] == ShowMenu <==> status == Off) && (r[0] == ShowGame <==> status != Off)
  {
    if !mPressed then [] else if status == Off then [ShowMenu] else [ShowGame]
  }

  /** `HandleInput`: the mouse is read only while the manager updates (the
      hidden menu's buttons cannot be clicked); the keyboard always is. */
  function Input(s: MenuState, elements: seq<Element>, clicked: bool, mPressed: bool): (r: Effect)
  {
    var m := if Update in s.status then MouseRun(s, elements, clicked) else Effect(s, []);
    Effect(m.state, m.published + KeyboardEvents(m.state.status, mPressed))
  }

  /** A menu that does not update ignores the mouse entirely. */
  lemma HiddenMenuIgnoresMouse(s: MenuState, elements: seq<Element>, clicked: bool, mPressed: bool)
    requires Update !in s.status
    ensures Input(s, elements, clicked, mPressed) == Effect(s, KeyboardEvents(s.status, mPressed))
  {
  }

  /** The M key toggles: the event it publishes, once handled, hides a shown menu
      and shows a hidden one; pressing it twice restores the status. */
  lemma MToggles(s: MenuState)
    requires s.status == Off || s.status == Shown
    ensures var t := AfterEvent(s, KeyboardEvents(s.status, true)[0]);
            t.status == (if s.status == Off then Shown else Off) &&
            AfterEvent(t, KeyboardEvents(t.status, true)[0]).status == s.status
  {
  }

  /** Clicking "play" on the shown menu leads, once its events are handled, to the game. */
  lemma PlayStartsGame(s: MenuState)
    ensures var c := Clicked(s, "play");
            AfterEvent(AfterEvent(c.state, c.published[0]), c.published[1]).status == Off
  {
  }

  class MyMenuManager {
    var status: Status
    var scene: string
    /** Set where the source calls `Game.Exit()`. */
    var exitRequested: bool
    const dispatcher: EventDispatcher

    function State(): MenuState
      reads this
    {
      MenuState(status, scene, exitRequested)
    }

    /** Subscribes to the Player category on construction. */
    constructor (status: Status, dispatcher: EventDispatcher)
      modifies dispatcher`subscriptions
      ensures State() == MenuState(status, "", false) && this.dispatcher == dispatcher
      ensures dispatcher.subscriptions == old(dispatcher.subscriptions) + [Subscription(PlayerCategory, MenuHandler)]
    {
      this.status := status;
      this.scene := "";
      this.exitRequested := false;
      this.dispatcher := dispatcher;
      new;
      dispatcher.Subscribe(PlayerCategory, MenuHandler);
    }

    /** The subscription the `MenuManager` base class makes when the game
        starts its components: the menu listens to the Menu category, whose
        OnPause and OnPlay `HandleEvent` answers. */
    method SubscribeToEvents()
      modifies dispatcher`subscriptions
      ensures dispatcher.subscriptions == old(dispatcher.subscriptions) + [Subscription(MenuCategory, MenuHandler)]
    {
      dispatcher.Subscribe(MenuCategory, MenuHandler);
    }

    method SetScene(name: string)
      modifies this`scene
      ensures scene == name
    {
      scene := name;
    }

    method HandleEvent(e: Event)
      modifies this`status, this`scene
      ensures State() == AfterEvent(old(State()), e)
    {
      if e.category == MenuCategory {
        if e.action == OnPause {
          status := Shown;
        } else if e.action == OnPlay {
          status := Off;
        }
      } else if e.category == PlayerCategory {
        if e.action == OnGameOver {
          status := Shown;
          SetScene("end");
        }
      }
    }

    method HandleClickedButton(id: string)
      modifies this`scene, this`exitRequested, dispatcher`log
      ensures State() == Clicked(old(State()), id).state
      ensures dispatcher.log == old(dispatcher.log) + Clicked(old(State()), id).published
    {
      if id == "play" {
        dispatcher.Publish(ButtonClick);
        dispatcher.Publish(ShowGame);
      } else if id == "End_Button" {
        dispatcher.Publish(ButtonClick);
        exitRequested := true;
      } else if id == "controls" {
        SetScene("controls");
      } else if id == "exit" {
        dispatcher.Publish(ButtonClick);
        exitRequested := true;
      }
    }

    /** `HandleMouse` over a snapshot of the active list; `clicked` is this
        frame's `IsLeftButtonClickedOnce()`. */
    method HandleMouse(elements: seq<Element>, clicked: bool)
      modifies this`scene, this`exitRequested, dispatcher`log
      ensures State() == MouseRun(old(State()), elements, clicked).state
      ensures dispatcher.log == old(dispatcher.log) + MouseRun(old(State()), elements, clicked).published
    {
      var i := 0;
      while i < |elements|
        invariant 0 <= i <= |elements|
        invariant State() == MouseRun(old(State()), elements[..i], clicked).state
        invariant dispatcher.log == old(dispatcher.log) + MouseRun(old(State()), elements[..i], clicked).published
      {
        assert elements[..i + 1][..i] == elements[..i];
        if elements[i].isButton && elements[i].containsMouse && clicked {
          HandleClickedButton(elements[i].id);
        }
        i := i + 1;
      }
      assert elements[..i] == elements;
    }

    method HandleKeyboard(mPressed: bool)
      modifies dispatcher`log
      ensures dispatcher.log == old(dispatcher.log) + KeyboardEvents(status, mPressed)
    {
      if mPressed {
        if status == Off {
          dispatcher.Publish(ShowMenu);
        } else {
          dispatcher.Publish(ShowGame);
        }
      }
    }

    method HandleInput(elements: seq<Element>, clicked: bool, mPressed: bool)
      modifies this`scene, this`exitRequested, dispatcher`log
      ensures State() == Input(old(State()), elements, clicked, mPressed).state
      ensures dispatcher.log == old(dispatcher.log) + Input(old(State()), elements, clicked, mPressed).published
    {
      if Update in status {
        HandleMouse(elements, clicked);
      }
      HandleKeyboard(mPressed);
    }
  }
}
