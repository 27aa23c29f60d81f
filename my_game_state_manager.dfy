/** `MyGameStateManager`: keeps the running death count and level number and
    mirrors the death count into the UI text object it shares, by reference,
    with the `DeathCountController`. */
module GameState {
  import opened Common
  import opened Events
  import DeathCount

  /** The manager's state together with the text of the shared UI object. */
  datatype Tally = Tally(deathCount: int, level: int, text: string)

  /** The two (category, action) pairs the handler acts on. */
  predicate Handled(e: Event)
  {
    (e.category == UICategory && e.action == OnDeathCountChange) ||
    (e.category == PlayerCategory && e.action == OnWin)
  }

  /** What the `(int)` casts need: a handled event carries an integer first parameter. */
  predicate WellShaped(e: Event)
  {
    Handled(e) ==> DeathCount.CountParam(e)
  }

  /** `HandleEvent`: UI death-count changes add to the count and show the new
      total, a Player win jumps the level by its parameter plus one, and
      nothing else changes anything. */
  function StateAfter(t: Tally, e: Event): (r: Tally)
    requires WellShaped(e)
    ensures e.category == UICategory && e.action == OnDeathCountChange ==>
              r.deathCount == t.deathCount + e.params[0].n && r.level == t.level &&
              DeathCount.ShowsCount(r.text, r.deathCount)
    ensures e.category == PlayerCategory && e.action == OnWin ==>
              r.level == t.level + e.params[0].n + 1 && r.deathCount == t.deathCount && r.text == t.text
    ensures !Handled(e) ==> r == t
  {
    if e.category == UICategory && e.action == OnDeathCountChange then
      var total := t.deathCount + e.params[0].n;
      Tally(total, t.level, DeathCount.DeathCountText(total))
    else if e.category == PlayerCategory && e.action == OnWin then
      t.(level := t.level + e.params[0].n + 1)
    else t
  }

  /** A run of events handled one after the other. */
  function Deliver(t: Tally, es: seq<Event>): Tally
    requires forall i :: 0 <= i < |es| ==> WellShaped(es[i])
    decreases |es|
  {
    if |es| == 0 then t else Deliver(StateAfter(t, es[0]), es[1..])
  }

  /** The sum of the death-count changes in a run. */
  function DeathSum(es: seq<Event>): int
    requires forall i :: 0 <= i < |es| ==> WellShaped(es[i])
    decreases |es|
  {
    if |es| == 0 then 0
    else
      assert WellShaped(es[0]);
      (if es[0].category == UICategory && es[0].action == OnDeathCountChange then es[0].params[0].n else 0)
      + DeathSum(es[1..])
  }

  /** The levels a run of wins advances by. */
  function LevelSum(es: seq<Event>): int
    requires forall i :: 0 <= i < |es| ==> WellShaped(es[i])
    decreases |es|
  {
    if |es| == 0 then 0
    else
      assert WellShaped(es[0]);
      (if es[0].category == PlayerCategory && es[0].action == OnWin then es[0].params[0].n + 1 else 0)
      + LevelSum(es[1..])
  }

  /** The count is the running total of the changes, the level the running total
      of the win jumps, and once the text shows the count it keeps showing it. */
  lemma {:induction false} DeliverAccumulates(t: Tally, es: seq<Event>)
    requires forall i :: 0 <= i < |es| ==> WellShaped(es[i])
    ensures Deliver(t, es).deathCount == t.deathCount + DeathSum(es)
    ensures Deliver(t, es).level == t.level + LevelSum(es)
    ensures DeathCount.ShowsCount(t.text, t.deathCount) ==>
              DeathCount.ShowsCount(Deliver(t, es).text, Deliver(t, es).deathCount)
    decreases |es|
  {
    if |es| > 0 {
      assert forall i :: 0 <= i < |es[1..]| ==> WellShaped(es[1..][i]) by {
        forall i | 0 <= i < |es[1..]| ensures WellShaped(es[1..][i]) {
          assert es[1..][i] == es[i + 1];
        }
      }
      DeliverAccumulates(StateAfter(t, es[0]), es[1..]);
    }
  }

  /** The UI object list of the game-over event: a clone of the death-count text. */
  function GameOverEvent(text: string): Event
  {
    Simple(PlayerCategory, OnGameOver, [PUIObjects([text])])
  }

  /** The controller and the manager write the same text object. Delivered in
      the order controller, then manager, the text ends up showing the manager's
      running total; in the other order it would show only the last change. */
  lemma SharedTextOrder(t: Tally, e: Event)
    requires e.category == UICategory && e.action == OnDeathCountChange && DeathCount.CountParam(e)
    ensures DeathCount.ShowsCount(StateAfter(t.(text := DeathCount.ControllerText(t.text, e)), e).text,
                                  t.deathCount + e.params[0].n)
    ensures DeathCount.ShowsCount(DeathCount.ControllerText(StateAfter(t, e).text, e), e.params[0].n)
  {
  }

  class MyGameStateManager {
    var deathCount: int
    var level: int
    /** The UI text object, shared with the `DeathCountController`. */
    const textObject: DeathCount.UITextObject
    const status: Status
    const dispatcher: EventDispatcher

    function State(): Tally
      reads this, textObject
    {
      Tally(deathCount, level, textObject.text)
    }

    constructor (status: Status, textObject: DeathCount.UITextObject, dispatcher: EventDispatcher)
      ensures deathCount == 0 && level == 1
      ensures this.textObject == textObject && this.status == status && this.dispatcher == dispatcher
    {
      this.deathCount := 0;
      this.level := 1;
      this.textObject := textObject;
      this.status := status;
      this.dispatcher := dispatcher;
    }

    /** Subscribes to UI events only. */
    method SubscribeToEvents()
      modifies dispatcher`subscriptions
      ensures dispatcher.subscriptions == old(dispatcher.subscriptions) + [Subscription(UICategory, GameStateHandler)]
    {
      dispatcher.Subscribe(UICategory, GameStateHandler);
    }

    method HandleEvent(e: Event)
      requires WellShaped(e)
      modifies this`deathCount, this`level, textObject`text
      ensures State() == StateAfter(old(State()), e)
    {
      if e.category == UICategory {
        if e.action == OnDeathCountChange {
          deathCount := deathCount + e.params[0].n;
          textObject.text := DeathCount.TextPrefix + IntToString(deathCount);
        }
      } else if e.category == PlayerCategory {
        if e.action == OnWin {
          level := level + e.params[0].n;
          level := level + 1;
        }
      }
    }

    /** Publishes the game-over screen with a copy of the death-count text,
        then resets the count and its text to zero. */
    method EndScreen()
      modifies this`deathCount, textObject`text, dispatcher`log
      ensures dispatcher.log == old(dispatcher.log) + [GameOverEvent(old(textObject.text))]
      ensures deathCount == 0 && level == old(level)
      ensures DeathCount.ShowsCount(textObject.text, 0)
      ensures textObject.text == DeathCount.DeathCountText(0) == "Death Count: 0"
    {
      var clone := textObject.text;
      dispatcher.Publish(GameOverEvent(clone));
      deathCount := 0;
      textObject.text := DeathCount.DeathCountText(deathCount);
    }
  }
}
