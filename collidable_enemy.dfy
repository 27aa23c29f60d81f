/** `CollidableEnemy`: an actor that looks the player up every frame, runs its
    collision response and steps towards the player when it is close. */
module Enemy {
  import opened Common
  import opened Events
  import Collidable
  import Player

  /** The ID under which the enemy looks the player up in the registry. */
  const PlayerId: string := "collidable player1"
  /** One chase step along an axis. */
  const ChaseSpeed: real := 0.2

  function SquaredDistance(a: Vec3, b: Vec3): (d: real)
    ensures d >= 0.0
  {
    (a.x - b.x) * (a.x - b.x) + (a.y - b.y) * (a.y - b.y) + (a.z - b.z) * (a.z - b.z)
  }

  /** `(enemy - player).Length() <= 100`, compared without the square root. */
  predicate InChaseRange(e: Vec3, p: Vec3)
  {
    SquaredDistance(e, p) <= 100.0 * 100.0
  }

  /** The chase: in range, one step of 0.2 along X and along Z towards the
      player, ties going the positive way; Y is never touched. */
  function Chase(e: Vec3, p: Vec3): (r: Vec3)
    ensures r.y == e.y
    ensures !InChaseRange(e, p) ==> r == e
    ensures InChaseRange(e, p) ==>
              (r.x == e.x + ChaseSpeed <==> e.x <= p.x) && (r.x == e.x - ChaseSpeed <==> e.x > p.x) &&
              (r.z == e.z + ChaseSpeed <==> e.z <= p.z) && (r.z == e.z - ChaseSpeed <==> e.z > p.z)
  {
    if InChaseRange(e, p) then
      // The source's second test is `>=`, so its final branch (no step) is unreachable.
      var dx := if e.x <= p.x then ChaseSpeed else if e.x >= p.x then -ChaseSpeed else 0.0;
      var dz := if e.z <= p.z then ChaseSpeed else if e.z >= p.z then -ChaseSpeed else 0.0;
      Vec3(e.x + dx, e.y, e.z + dz)
    else e
  }

  /** The effect of the enemy's `HandleCollisionResponse`. */
  datatype EnemyResponse = EnemyResponse(collidee: Option<Actor>, published: seq<Event>)

  function Respond(c: Option<Actor>): (r: EnemyResponse)
    ensures r.collidee == None <==> c == None || c.value.kind == ZoneObject
    ensures r.collidee != None ==> r.collidee == c
    ensures |r.published| <= 1
    ensures r.published != [] <==> c.Some? && c.value.kind == PrimitiveObject && c.value.actorType == CollidablePickup
    ensures c.Some? && c.value.kind == PrimitiveObject && c.value.actorType == CollidablePickup ==>
              r.published == [Player.RemoveActorEvent(c.value)]
  {
    match c
    case None => EnemyResponse(None, [])
    case Some(a) =>
      if a.kind == ZoneObject then EnemyResponse(None, [])
      else if a.kind == PrimitiveObject && a.actorType == CollidablePickup then
        EnemyResponse(c, [Player.RemoveActorEvent(a)])
      else EnemyResponse(c, [])
  }

  /** The enemy's own state, as one value. */
  datatype EnemyState = EnemyState(transform: Transform3D, increment: Vec3, collidee: Option<Actor>)

  /** One `Update`, and whether `ApplyInput` ran in it. */
  datatype Frame = Frame(state: EnemyState, published: seq<Event>, applied: bool)

  /** One `Update`: the staged increment is reset by the inherited update that
      `HandleMovement` runs, detection and response follow, the chase step is
      taken whatever the collidee, and `ApplyInput` runs only without a collidee. */
  function EnemyFrame(s: EnemyState, playerAt: Vec3, detected: Option<Actor>): Frame
  {
    var r := Respond(detected);
    var chased := Chase(s.transform.translation, playerAt);
    var applied := r.collidee == None;
    var moved := if applied then chased.Plus(Zero) else chased;
    Frame(EnemyState(s.transform.(translation := moved), Zero, r.collidee), r.published, applied)
  }

  /** The collidee never holds the enemy back: its position after a frame is the chase step alone. */
  lemma ChaseIsTheOnlyMove(s: EnemyState, playerAt: Vec3, detected: Option<Actor>)
    ensures EnemyFrame(s, playerAt, detected).state.transform.translation == Chase(s.transform.translation, playerAt)
  {
  }

  /** A player collidee triggers nothing and stays the collidee, so `ApplyInput` is skipped. */
  lemma PlayerCollideeStays(s: EnemyState, playerAt: Vec3, p: Actor)
    requires p.kind == PrimitiveObject && p.actorType == CollidablePlayer
    ensures var f := EnemyFrame(s, playerAt, Some(p));
            f.state.collidee == Some(p) && f.published == [] && !f.applied
  {
  }

  /** A run of chase steps within range never changes the enemy's height. */
  function ChaseRun(e: Vec3, players: seq<Vec3>): Vec3
    decreases |players|
  {
    if |players| == 0 then e else ChaseRun(Chase(e, players[0]), players[1..])
  }

  lemma {:induction false} ChaseRunKeepsHeight(e: Vec3, players: seq<Vec3>)
    ensures ChaseRun(e, players).y == e.y
    decreases |players|
  {
    if |players| > 0 {
      ChaseRunKeepsHeight(Chase(e, players[0]), players[1..]);
    }
  }

  class CollidableEnemy {
    const id: string
    const actorType: ActorType
    var transform: Transform3D
    var increment: Vec3
    var collidee: Option<Actor>
    const speed: real
    const range: real
    /** The player, looked up again at the start of every `Update`. */
    var player: Player.CollidablePlayerObject?
    const collisionPrimitive: Collidable.CollisionPrimitive
    const objectManager: Collidable.ObjectManager
    const dispatcher: EventDispatcher

    function State(): EnemyState
      reads this
    {
      EnemyState(transform, increment, collidee)
    }

    constructor (id: string, actorType: ActorType, transform: Transform3D,
                 collisionPrimitive: Collidable.CollisionPrimitive, objectManager: Collidable.ObjectManager,
                 speed: real, range: real, player: Player.CollidablePlayerObject?, dispatcher: EventDispatcher)
      ensures State() == EnemyState(transform, Zero, None)
      ensures this.id == id && this.actorType == actorType && this.player == player
      ensures this.speed == speed && this.range == range && this.dispatcher == dispatcher
    {
      this.id := id;
      this.actorType := actorType;
      this.transform := transform;
      this.increment := Zero;
      this.collidee := None;
      this.speed := speed;
      this.range := range;
      this.player := player;
      this.collisionPrimitive := collisionPrimitive;
      this.objectManager := objectManager;
      this.dispatcher := dispatcher;
    }

    method HandleCollisionResponse(c: Option<Actor>)
      modifies this`collidee, dispatcher`log
      ensures collidee == (if c.Some? && c.value.kind == ZoneObject then None else old(collidee))
      ensures dispatcher.log == old(dispatcher.log) + Respond(c).published
    {
      if c.Some? && c.value.kind == ZoneObject {
        collidee := None;
      } else if c.Some? && c.value.kind == PrimitiveObject {
        if c.value.actorType == CollidablePickup {
          dispatcher.Publish(Player.RemoveActorEvent(c.value));
        } else if c.value.actorType == CollidablePlayer {
        }
      }
    }

    method TranslateBy(delta: Vec3)
      modifies this`transform
      ensures transform == old(transform.(translation := transform.translation.Plus(delta)))
    {
      transform := transform.(translation := transform.translation.Plus(delta));
    }

    /** `Update`, given what the registry returned for `PlayerId`. A missing player
        is dereferenced by the source, so the lookup must succeed. */
    method Update(found: Player.CollidablePlayerObject?, detected: Option<Actor>) returns (applied: bool)
      requires found != null
      modifies this, dispatcher`log
      ensures player == found
      ensures var f := EnemyFrame(old(State()), found.transform.translation, detected);
              State() == f.state && dispatcher.log == old(dispatcher.log) + f.published && applied == f.applied
    {
      player := found;
      increment := Zero;
      collidee := detected;
      HandleCollisionResponse(collidee);
      var e := transform.translation;
      var p := player.transform.translation;
      if SquaredDistance(e, p) <= 100.0 * 100.0 {
        if transform.translation.x <= p.x {
          TranslateBy(Vec3(ChaseSpeed, 0.0, 0.0));
        } else if transform.translation.x >= p.x {
          TranslateBy(Vec3(-ChaseSpeed, 0.0, 0.0));
        }
        if transform.translation.z <= p.z {
          TranslateBy(Vec3(0.0, 0.0, ChaseSpeed));
        } else if transform.translation.z >= p.z {
          TranslateBy(Vec3(0.0, 0.0, -ChaseSpeed));
        }
      }
      applied := collidee == None;
      if applied {
        TranslateBy(increment);
      }
      increment := Zero;
    }
  }
}
