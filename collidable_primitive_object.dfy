/** `CollidablePrimitiveObject`: the parent of every collidable drawn actor. It
    owns a collision primitive and a nullable "current collidee", keeps the
    object registry it was built with, and offers no-op hooks that the game's
    collidable actors override. */
module Collidable {
  import opened Common

  /** The skin wrapped around an actor. A primitive is always bound to the
      transform of the actor that owns it, so only its shape is recorded here. */
  datatype CollisionPrimitive = BoxCollisionPrimitive | SphereCollisionPrimitive(radius: real)

  /** The object registry, which this core only passes around. */
  class ObjectManager {
    constructor () {}
  }

  class CollidablePrimitiveObject {
    const id: string
    const actorType: ActorType
    var statusType: Status
    var transform: Transform3D
    var collisionPrimitive: CollisionPrimitive
    var collidee: Option<Actor>
    /** Set once by the constructor; the class offers no setter for it. */
    const objectManager: ObjectManager

    constructor (id: string, actorType: ActorType, statusType: Status, transform: Transform3D,
                 collisionPrimitive: CollisionPrimitive, objectManager: ObjectManager)
      ensures this.id == id && this.actorType == actorType && this.statusType == statusType
      ensures this.transform == transform
      ensures this.collisionPrimitive == collisionPrimitive
      ensures this.objectManager == objectManager
      ensures collidee == None
    {
      this.id := id;
      this.actorType := actorType;
      this.statusType := statusType;
      this.transform := transform;
      this.collisionPrimitive := collisionPrimitive;
      this.objectManager := objectManager;
      this.collidee := None;
    }

    /** The `Collidee` getter. */
    method GetCollidee() returns (c: Option<Actor>)
      ensures c == collidee
    {
      c := collidee;
    }

    /** The `Collidee` setter: stores exactly the value given, `null` included. */
    method SetCollidee(c: Option<Actor>)
      modifies this`collidee
      ensures collidee == c
    {
      collidee := c;
    }

    /** The `CollisionPrimitive` getter. */
    method GetCollisionPrimitive() returns (p: CollisionPrimitive)
      ensures p == collisionPrimitive
    {
      p := collisionPrimitive;
    }

    /** The `CollisionPrimitive` setter. */
    method SetCollisionPrimitive(p: CollisionPrimitive)
      modifies this`collisionPrimitive
      ensures collisionPrimitive == p
    {
      collisionPrimitive := p;
    }

    /** The `ObjectManager` getter. */
    method GetObjectManager() returns (m: ObjectManager)
      ensures m == objectManager
    {
      m := objectManager;
    }

    /** The default input hook does nothing. */
    method HandleInput()
      ensures unchanged(this)
    {
    }

    /** The default collision response does nothing, whatever the collidee. */
    method HandleCollisionResponse(c: Option<Actor>)
      ensures unchanged(this)
    {
    }

    /** The default collision test reports no collidee. */
    method CheckCollisions() returns (r: Option<Actor>)
      ensures r == None
    {
      r := None;
    }
  }

  /** A `Collidee` assignment followed by a read returns what was assigned, and a
      plain collidable's own test reports nothing. */
  method CollideeRoundTrip(o: CollidablePrimitiveObject, c: Option<Actor>) returns (read: Option<Actor>, own: Option<Actor>)
    modifies o
    ensures read == c && own == None
    ensures o.collisionPrimitive == old(o.collisionPrimitive)
  {
    o.SetCollidee(c);
    o.HandleCollisionResponse(c);
    read := o.GetCollidee();
    own := o.CheckCollisions();
  }
}
