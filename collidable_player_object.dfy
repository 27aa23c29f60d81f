/** `CollidablePlayerObject`: the keyboard-driven player. Each frame it stages
    movement from the move keys, takes the collidee found by detection, runs
    its collision response and commits the staged movement only when no
    collidee is left. */
module Player {
  import opened Common
  import opened Events
  import Collidable

  /** Where the player is put back after touching an enemy or an obstacle. */
  const SpawnPoint: Vec3 := Vec3(150.0, 2.5, 500.0)
  /** The one zone whose response plays a sound. */
  const SoundZoneId: string := "sound and camera trigger zone 1"

  function SmokeAlarmEvent(): Event { Simple(SoundCategory, OnPlay2D, [PString("smokealarm")]) }
  function RemoveActorEvent(a: Actor): Event { Simple(ObjectCategory, OnRemoveActor, [PActor(a)]) }

  /** The six move keys this frame: held (forward, backward, left, right) and
      newly pressed (rotate right, rotate left). */
  datatype MoveInput = MoveInput(forwardDown: bool, backwardDown: bool, leftDown: bool, rightDown: bool,
                                 rotateRightPressed: bool, rotateLeftPressed: bool)

  /** What `HandleInput` stages: the translate increment and the turn about the up axis in degrees. */
  datatype Staging = Staging(increment: Vec3, turn: real)

  /** `HandleInput`. Forward or backward assigns the increment, left or right is
      added to it, and at most one quarter turn is requested. `elapsedMs` is the
      milliseconds component of the frame's elapsed time. */
  function Stage(keys: MoveInput, look: Vec3, right: Vec3, elapsedMs: int, moveSpeed: real,
                 increment: Vec3): (s: Staging)
    ensures s.turn == -90.0 <==> keys.rotateRightPressed
    ensures s.turn == 90.0 <==> !keys.rotateRightPressed && keys.rotateLeftPressed
    ensures s.turn == 0.0 <==> !keys.rotateRightPressed && !keys.rotateLeftPressed
    ensures !keys.forwardDown && !keys.backwardDown && !keys.leftDown && !keys.rightDown ==>
              s.increment == increment
    ensures keys.forwardDown && !keys.leftDown && !keys.rightDown ==>
              s.increment == look.Times(elapsedMs as real * moveSpeed)
    ensures !keys.forwardDown && keys.backwardDown && !keys.leftDown && !keys.rightDown ==>
              s.increment == look.Negated().Times(elapsedMs as real * moveSpeed)
  {
    var step := elapsedMs as real * moveSpeed;
    var along := if keys.forwardDown then look.Times(step)
                 else if keys.backwardDown then look.Negated().Times(step)
                 else increment;
    var strafed := if keys.leftDown then along.Plus(right.Negated().Times(step))
                   else if keys.rightDown then along.Plus(right.Times(step))
                   else along;
    var turn := if keys.rotateRightPressed then -90.0
                else if keys.rotateLeftPressed then 90.0
                else 0.0;
    Staging(strafed, turn)
  }

  /** Forward beats backward: with forward held, the backward key makes no difference. */
  lemma ForwardBeatsBackward(keys: MoveInput, look: Vec3, right: Vec3, elapsedMs: int, moveSpeed: real, inc: Vec3)
    requires keys.forwardDown
    ensures Stage(keys, look, right, elapsedMs, moveSpeed, inc) ==
            Stage(keys.(backwardDown := !keys.backwardDown), look, right, elapsedMs, moveSpeed, inc)
  {
  }

  /** Left beats right: with left held, the right key makes no difference. */
  lemma LeftBeatsRight(keys: MoveInput, look: Vec3, right: Vec3, elapsedMs: int, moveSpeed: real, inc: Vec3)
    requires keys.leftDown
    ensures Stage(keys, look, right, elapsedMs, moveSpeed, inc) ==
            Stage(keys.(rightDown := !keys.rightDown), look, right, elapsedMs, moveSpeed, inc)
  {
  }

  /** Strafing is added on to whatever forward, backward or the old increment
      staged: left adds `-right * ms * speed`, otherwise right adds `right * ms * speed`. */
  lemma StrafeAddsOn(keys: MoveInput, look: Vec3, right: Vec3, elapsedMs: int, moveSpeed: real, inc: Vec3)
    ensures var along := Stage(keys.(leftDown := false, rightDown := false), look, right, elapsedMs, moveSpeed, inc).increment;
            var step := elapsedMs as real * moveSpeed;
            var s := Stage(keys, look, right, elapsedMs, moveSpeed, inc).increment;
            (keys.leftDown ==> s == along.Plus(right.Negated().Times(step))) &&
            (!keys.leftDown && keys.rightDown ==> s == along.Plus(right.Times(step)))
  {
  }

  /** `RotateAroundUpBy(degrees)` on a direction, for the quarter turns the
      player makes: the turn about the up axis `Matrix.CreateRotationY` gives,
      which takes (x, y, z) to (z, y, -x) for +90 degrees and to (-z, y, x)
      for -90; no turn (0) leaves it alone. */
  function TurnAboutUp(v: Vec3, degrees: real): (r: Vec3)
    requires degrees == -90.0 || degrees == 0.0 || degrees == 90.0
    ensures r.y == v.y
    ensures r.x * r.x + r.z * r.z == v.x * v.x + v.z * v.z
  {
    if degrees == 90.0 then Vec3(v.z, v.y, -v.x)
    else if degrees == -90.0 then Vec3(-v.z, v.y, v.x)
    else v
  }

  /** A quarter turn one way is undone by the same turn the other way. */
  lemma TurnBack(v: Vec3, degrees: real)
    requires degrees == -90.0 || degrees == 0.0 || degrees == 90.0
    ensures TurnAboutUp(TurnAboutUp(v, degrees), -degrees) == v
  {
  }

  /** Four quarter turns the same way come back to the start, and two point the other way. */
  lemma FullTurn(v: Vec3, degrees: real)
    requires degrees == -90.0 || degrees == 90.0
    ensures TurnAboutUp(TurnAboutUp(v, degrees), degrees) == Vec3(-v.x, v.y, -v.z)
    ensures TurnAboutUp(TurnAboutUp(TurnAboutUp(TurnAboutUp(v, degrees), degrees), degrees), degrees) == v
  {
  }

  /** Is the collidee an enemy or an obstacle, tested as a `CollidablePrimitiveObject`? */
  predicate Deadly(c: Option<Actor>)
  {
    c.Some? && c.value.kind == PrimitiveObject && (c.value.actorType == Enemy || c.value.actorType == Obstacle)
  }

  /** The diffuse colour the response gives to an enemy or obstacle it touched. */
  datatype Tint = Yellow | Purple

  /** The effect of one call of `HandleCollisionResponse`. */
  datatype Response = Response(collidee: Option<Actor>, translation: Vec3, deathCount: int,
                               published: seq<Event>, tint: Option<Tint>)

  /** `HandleCollisionResponse` of the player: a dispatch on the collidee's class and type. */
  function Respond(c: Option<Actor>, translation: Vec3, deathCount: int): (r: Response)
    ensures r.deathCount == deathCount + (if Deadly(c) then 1 else 0)
    ensures r.translation == if Deadly(c) then SpawnPoint else translation
    ensures r.collidee == None <==> c == None || c.value.kind == ZoneObject
    ensures r.collidee != None ==> r.collidee == c
    ensures |r.published| <= 1
    ensures r.published != [] <==>
              c.Some? && ((c.value.kind == ZoneObject && c.value.id == SoundZoneId) ||
                          (c.value.kind == PrimitiveObject && c.value.actorType == CollidablePickup))
    ensures r.tint != None <==> Deadly(c)
    ensures Deadly(c) ==> r.tint == Some(if c.value.actorType == Enemy then Yellow else Purple)
  {
    match c
    case None => Response(None, translation, deathCount, [], None)
    case Some(a) =>
      if a.kind == ZoneObject then
        Response(None, translation, deathCount, if a.id == SoundZoneId then [SmokeAlarmEvent()] else [], None)
      else if a.kind == PrimitiveObject then
        if a.actorType == CollidablePickup then Response(c, translation, deathCount, [RemoveActorEvent(a)], None)
        else if a.actorType == Enemy then Response(c, SpawnPoint, deathCount + 1, [], Some(Yellow))
        else if a.actorType == Obstacle then Response(c, SpawnPoint, deathCount + 1, [], Some(Purple))
        else Response(c, translation, deathCount, [], None)
      else Response(c, translation, deathCount, [], None)
  }

  /** The one zone that publishes anything publishes exactly the smoke-alarm sound. */
  lemma ZoneEvents(a: Actor, translation: Vec3, deathCount: int)
    requires a.kind == ZoneObject
    ensures Respond(Some(a), translation, deathCount).published ==
            if a.id == SoundZoneId then [SmokeAlarmEvent()] else []
  {
  }

  /** A pickup is asked to be removed, exactly once, with itself as the only parameter. */
  lemma PickupEvents(a: Actor, translation: Vec3, deathCount: int)
    requires a.kind == PrimitiveObject && a.actorType == CollidablePickup
    ensures Respond(Some(a), translation, deathCount).published == [RemoveActorEvent(a)]
  {
  }

  /** The player's own state, as one value: its transform with the Look and
      Right directions the transform keeps. */
  datatype PlayerState = PlayerState(transform: Transform3D, look: Vec3, right: Vec3,
                                     increment: Vec3, collidee: Option<Actor>, deathCount: int)

  /** The transform after `RotateAroundUpBy(degrees)`: the rotation about Y
      grows by `degrees`, and Look and Right turn with it. */
  function Turned(s: PlayerState, degrees: real): (r: PlayerState)
    requires degrees == -90.0 || degrees == 0.0 || degrees == 90.0
    ensures r.transform.translation == s.transform.translation && r.transform.scale == s.transform.scale
    ensures r.transform.rotationInDegrees ==
              s.transform.rotationInDegrees.(y := s.transform.rotationInDegrees.y + degrees)
    ensures r.look == TurnAboutUp(s.look, degrees) && r.right == TurnAboutUp(s.right, degrees)
    ensures r.increment == s.increment && r.collidee == s.collidee && r.deathCount == s.deathCount
  {
    var rot := s.transform.rotationInDegrees;
    s.(transform := s.transform.(rotationInDegrees := rot.(y := rot.y + degrees)),
       look := TurnAboutUp(s.look, degrees), right := TurnAboutUp(s.right, degrees))
  }

  /** What one `Update` does to the player and what it publishes. */
  datatype Frame = Frame(state: PlayerState, published: seq<Event>, tint: Option<Tint>)

  /** One `Update`: input, detection, response, movement if no collidee remains,
      then the reset of the staged increment. */
  function PlayerFrame(s: PlayerState, keys: MoveInput, elapsedMs: int, moveSpeed: real,
                       detected: Option<Actor>): Frame
  {
    var staged := Stage(keys, s.look, s.right, elapsedMs, moveSpeed, s.increment);
    var t := Turned(s, staged.turn);
    var r := Respond(detected, t.transform.translation, t.deathCount);
    var moved := if r.collidee == None then r.translation.Plus(staged.increment) else r.translation;
    Frame(t.(transform := t.transform.(translation := moved),
             increment := Zero, collidee := r.collidee, deathCount := r.deathCount),
          r.published, r.tint)
  }

  /** Zones never block movement: the collidee is cleared and the staged step is taken. */
  lemma ZoneNeverBlocks(s: PlayerState, keys: MoveInput, ms: int, speed: real, zone: Actor)
    requires zone.kind == ZoneObject
    ensures var f := PlayerFrame(s, keys, ms, speed, Some(zone));
            f.state.collidee == None &&
            f.state.transform.translation ==
              s.transform.translation.Plus(Stage(keys, s.look, s.right, ms, speed, s.increment).increment)
  {
  }

  /** A pickup vetoes movement and publishes its removal. */
  lemma PickupVetoesMovement(s: PlayerState, keys: MoveInput, ms: int, speed: real, p: Actor)
    requires p.kind == PrimitiveObject && p.actorType == CollidablePickup
    ensures var f := PlayerFrame(s, keys, ms, speed, Some(p));
            f.state.collidee == Some(p) && f.state.transform.translation == s.transform.translation &&
            f.published == [RemoveActorEvent(p)] && f.state.deathCount == s.deathCount
  {
  }

  /** An enemy or obstacle puts the player at the spawn point, counts one death and publishes nothing. */
  lemma DeathResetsPlayer(s: PlayerState, keys: MoveInput, ms: int, speed: real, d: Actor)
    requires Deadly(Some(d))
    ensures var f := PlayerFrame(s, keys, ms, speed, Some(d));
            f.state.transform.translation == SpawnPoint && f.state.deathCount == s.deathCount + 1 &&
            f.published == []
  {
  }

  /** Every frame turns Look, Right and the rotation about Y by the requested
      quarter turn, whatever it collides with; the step it takes was staged
      along the Look and Right from before the turn. */
  lemma FrameTurns(s: PlayerState, keys: MoveInput, ms: int, speed: real, detected: Option<Actor>)
    ensures var st := Stage(keys, s.look, s.right, ms, speed, s.increment);
            var f := PlayerFrame(s, keys, ms, speed, detected);
            f.state.look == TurnAboutUp(s.look, st.turn) && f.state.right == TurnAboutUp(s.right, st.turn) &&
            f.state.transform.rotationInDegrees.y == s.transform.rotationInDegrees.y + st.turn &&
            (detected == None ==> f.state.transform.translation == s.transform.translation.Plus(st.increment))
  {
  }

  /** A turn steers the frames after it: a frame that only turns right and
      meets nothing, followed by a frame that only holds forward and meets
      nothing, steps along the Look turned by -90 degrees. */
  lemma TurnSteersNextFrame(s: PlayerState, ms1: int, ms2: int, speed: real)
    ensures var f1 := PlayerFrame(s, MoveInput(false, false, false, false, true, false), ms1, speed, None);
            var f2 := PlayerFrame(f1.state, MoveInput(true, false, false, false, false, false), ms2, speed, None);
            f1.state.look == TurnAboutUp(s.look, -90.0) &&
            f2.state.transform.translation ==
              s.transform.translation.Plus(s.increment).Plus(TurnAboutUp(s.look, -90.0).Times(ms2 as real * speed))
  {
  }

  /** What a frame reads from the outside world. */
  datatype FrameInput = FrameInput(keys: MoveInput, elapsedMs: int, detected: Option<Actor>)

  function Run(s: PlayerState, moveSpeed: real, inputs: seq<FrameInput>): PlayerState
    decreases |inputs|
  {
    if |inputs| == 0 then s
    else Run(PlayerFrame(s, inputs[0].keys, inputs[0].elapsedMs, moveSpeed, inputs[0].detected).state,
             moveSpeed, inputs[1..])
  }

  function DeadlyCount(inputs: seq<FrameInput>): nat
    decreases |inputs|
  {
    if |inputs| == 0 then 0 else (if Deadly(inputs[0].detected) then 1 else 0) + DeadlyCount(inputs[1..])
  }

  /** Over any run of frames the private death counter grows by exactly the
      number of frames whose collidee was an enemy or an obstacle. */
  lemma {:induction false} DeathCountCountsDeaths(s: PlayerState, moveSpeed: real, inputs: seq<FrameInput>)
    ensures Run(s, moveSpeed, inputs).deathCount == s.deathCount + DeadlyCount(inputs)
    decreases |inputs|
  {
    if |inputs| > 0 {
      var next := PlayerFrame(s, inputs[0].keys, inputs[0].elapsedMs, moveSpeed, inputs[0].detected).state;
      DeathCountCountsDeaths(next, moveSpeed, inputs[1..]);
    }
  }

  class CollidablePlayerObject {
    const id: string
    const actorType: ActorType
    var transform: Transform3D
    var look: Vec3
    var right: Vec3
    var increment: Vec3
    var collidee: Option<Actor>
    var deathCount: int
    const moveSpeed: real
    const rotationSpeed: real
    const collisionPrimitive: Collidable.CollisionPrimitive
    const objectManager: Collidable.ObjectManager
    const dispatcher: EventDispatcher

    function State(): PlayerState
      reads this
    {
      PlayerState(transform, look, right, increment, collidee, deathCount)
    }

    constructor (id: string, actorType: ActorType, transform: Transform3D, look: Vec3, right: Vec3,
                 collisionPrimitive: Collidable.CollisionPrimitive, objectManager: Collidable.ObjectManager,
                 moveSpeed: real, rotationSpeed: real, dispatcher: EventDispatcher)
      ensures State() == PlayerState(transform, look, right, Zero, None, 0)
      ensures this.id == id && this.actorType == actorType && this.dispatcher == dispatcher
      ensures this.moveSpeed == moveSpeed && this.collisionPrimitive == collisionPrimitive
    {
      this.id := id;
      this.actorType := actorType;
      this.transform := transform;
      this.look := look;
      this.right := right;
      this.increment := Zero;
      this.collidee := None;
      this.deathCount := 0;
      this.moveSpeed := moveSpeed;
      this.rotationSpeed := rotationSpeed;
      this.collisionPrimitive := collisionPrimitive;
      this.objectManager := objectManager;
      this.dispatcher := dispatcher;
    }

    /** Turns the transform about the up axis; Look and Right turn with it. */
    method RotateAroundUpBy(degrees: real)
      requires degrees == -90.0 || degrees == 0.0 || degrees == 90.0
      modifies this`transform, this`look, this`right
      ensures State() == Turned(old(State()), degrees)
    {
      var rot := transform.rotationInDegrees;
      transform := transform.(rotationInDegrees := rot.(y := rot.y + degrees));
      look := TurnAboutUp(look, degrees);
      right := TurnAboutUp(right, degrees);
    }

    /** Stages the step along the current Look and Right, then makes the turn. */
    method HandleInput(keys: MoveInput, elapsedMs: int)
      modifies this`increment, this`transform, this`look, this`right
      ensures var st := Stage(keys, old(look), old(right), elapsedMs, moveSpeed, old(increment));
              State() == Turned(old(State()).(increment := st.increment), st.turn)
    {
      var step := elapsedMs as real * moveSpeed;
      if keys.forwardDown {
        increment := look.Times(step);
      } else if keys.backwardDown {
        increment := look.Negated().Times(step);
      }
      if keys.leftDown {
        increment := increment.Plus(right.Negated().Times(step));
      } else if keys.rightDown {
        increment := increment.Plus(right.Times(step));
      }
      if keys.rotateRightPressed {
        RotateAroundUpBy(-90.0);
      } else if keys.rotateLeftPressed {
        RotateAroundUpBy(90.0);
      }
    }

    method HandleCollisionResponse(c: Option<Actor>) returns (tint: Option<Tint>)
      modifies this`collidee, this`transform, this`deathCount, dispatcher`log
      ensures var r := Respond(c, old(transform.translation), old(deathCount));
              collidee == (if c.Some? && c.value.kind == ZoneObject then None else old(collidee)) &&
              transform == old(transform.(translation := r.translation)) &&
              deathCount == r.deathCount && tint == r.tint &&
              dispatcher.log == old(dispatcher.log) + r.published
    {
      tint := None;
      if c.Some? && c.value.kind == ZoneObject {
        if c.value.id == SoundZoneId {
          dispatcher.Publish(SmokeAlarmEvent());
        }
        collidee := None;
      } else if c.Some? && c.value.kind == PrimitiveObject {
        var a := c.value;
        if a.actorType == CollidablePickup {
          dispatcher.Publish(RemoveActorEvent(a));
        } else if a.actorType == Enemy {
          tint := Some(Yellow);
          transform := transform.(translation := SpawnPoint);
          deathCount := deathCount + 1;
        }
        if a.actorType == Obstacle {
          tint := Some(Purple);
          transform := transform.(translation := SpawnPoint);
          deathCount := deathCount + 1;
        }
      }
    }

    /** Commits the staged increment to the translation. */
    method ApplyInput()
      modifies this`transform
      ensures transform == old(transform.(translation := transform.translation.Plus(increment)))
    {
      transform := transform.(translation := transform.translation.Plus(increment));
    }

    method Update(keys: MoveInput, elapsedMs: int, detected: Option<Actor>) returns (tint: Option<Tint>)
      modifies this, dispatcher`log
      ensures var f := PlayerFrame(old(State()), keys, elapsedMs, moveSpeed, detected);
              State() == f.state && tint == f.tint && dispatcher.log == old(dispatcher.log) + f.published
    {
      HandleInput(keys, elapsedMs);
      collidee := detected;
      tint := HandleCollisionResponse(collidee);
      if collidee == None {
        ApplyInput();
      }
      increment := Zero;
    }
  }
}
