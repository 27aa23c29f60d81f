/** The event vocabulary of the game and the dispatcher seen at its interface:
    publishing appends an event to a log, subscribing appends a
    (category, handler) pair. Synchronous delivery is described by `Receivers`:
    the handlers that an event would reach, in subscription order. */
module Events {
  import opened Common

  datatype Category = PlayerCategory | MenuCategory | UICategory | SoundCategory
                    | ObjectCategory | CameraCategory | EndCategory

  datatype Action = OnWin | OnGameOver | OnPlay2D | OnPlay3D | OnHealthDelta | OnRemoveActor
                  | OnDeathCountChange | OnPause | OnPlay | OnCameraCycle
                  | OnApplyActionToFirstMatchActor

  /** One element of an event's untyped parameter array, by what it holds. */
  datatype Param =
    | PString(s: string)
    | PInt(n: int)
    | PActor(a: Actor)
    /** the list of 2D UI objects of the game-over screen, by their texts */
    | PUIObjects(texts: seq<string>)
    /** a listener, an emitter or a game time: opaque to this core */
    | POpaque

  /** Where the untyped lambdas of an `OnApplyActionToFirstMatchActor` event are
      kept: the action sets the matched actor's status to `setStatus`, the
      predicate tests an actor's type and ID. */
  datatype FirstMatchQuery = FirstMatchQuery(setStatus: Status, matchType: ActorType, matchId: string)

  /** `actor.ActorType == matchType && actor.ID.Equals(matchId)`: ordinal, case-sensitive. */
  predicate Matches(q: FirstMatchQuery, a: Actor)
  {
    a.actorType == q.matchType && a.id == q.matchId
  }

  /** `EventData`; an event published with a `null` parameter array has `params == []`. */
  datatype Event = Event(category: Category, action: Action, params: seq<Param>, query: Option<FirstMatchQuery>)

  function Simple(c: Category, a: Action, ps: seq<Param>): Event
  {
    Event(c, a, ps, None)
  }

  /** The components whose handlers subscribe to the dispatcher. */
  datatype Handler = MainHandler | MenuHandler | SoundHandler | GameStateHandler | DeathCountHandler

  datatype Subscription = Subscription(category: Category, handler: Handler)

  /** The handlers an event of category `c` is delivered to, in subscription order. */
  function Receivers(subs: seq<Subscription>, c: Category): (r: seq<Handler>)
    ensures |r| <= |subs|
    ensures forall h :: h in r <==> Subscription(c, h) in subs
    decreases |subs|
  {
    if |subs| == 0 then []
    else (if subs[0].category == c then [subs[0].handler] else []) + Receivers(subs[1..], c)
  }

  /** A handler subscribed once to `c` receives an event of category `c` exactly once,
      and a handler never subscribed to `c` does not receive it at all. */
  lemma {:induction false} ReceiversCount(subs: seq<Subscription>, c: Category, h: Handler)
    ensures multiset(Receivers(subs, c))[h] == multiset(subs)[Subscription(c, h)]
    decreases |subs|
  {
    if |subs| > 0 {
      ReceiversCount(subs[1..], c, h);
      assert subs == [subs[0]] + subs[1..];
      assert multiset(subs) == multiset([subs[0]]) + multiset(subs[1..]);
    }
  }

  /** Subscribing a handler to one category changes nothing for the others. */
  lemma {:induction false} ReceiversAppend(subs: seq<Subscription>, s: Subscription, c: Category)
    ensures Receivers(subs + [s], c) ==
            Receivers(subs, c) + (if s.category == c then [s.handler] else [])
    decreases |subs|
  {
    if |subs| == 0 {
      assert subs + [s] == [s];
    } else {
      assert (subs + [s])[1..] == subs[1..] + [s];
      ReceiversAppend(subs[1..], s, c);
    }
  }

  /** Routing over two batches of subscriptions is the routing of the first
      batch followed by that of the second. */
  lemma {:induction false} ReceiversConcat(first: seq<Subscription>, second: seq<Subscription>, c: Category)
    ensures Receivers(first + second, c) == Receivers(first, c) + Receivers(second, c)
    decreases |first|
  {
    if |first| == 0 {
      assert first + second == second;
    } else {
      assert (first + second)[1..] == first[1..] + second;
      ReceiversConcat(first[1..], second, c);
    }
  }

  /** The process-wide `EventDispatcher`, at its interface. */
  class EventDispatcher {
    var log: seq<Event>
    var subscriptions: seq<Subscription>

    constructor ()
      ensures log == [] && subscriptions == []
    {
      log := [];
      subscriptions := [];
    }

    method Publish(e: Event)
      modifies this`log
      ensures log == old(log) + [e]
    {
      log := log + [e];
    }

    method Subscribe(c: Category, h: Handler)
      modifies this`subscriptions
      ensures subscriptions == old(subscriptions) + [Subscription(c, h)]
    {
      subscriptions := subscriptions + [Subscription(c, h)];
    }
  }
}
