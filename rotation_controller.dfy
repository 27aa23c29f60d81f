/** `RotationController`: every update turns the 3D actor it is attached to by
    a fixed amount about a fixed axis. */
module Rotation {
  import opened Common

  /** A 3D actor, by the transform the controller changes. */
  class Actor3D {
    var transform: Transform3D

    constructor (transform: Transform3D)
      ensures this.transform == transform
    {
      this.transform := transform;
    }
  }

  /** One update's turn: `rotationSpeed * rotationAxis` added to the rotation. */
  function Turned(rotation: Vec3, speed: real, axis: Vec3): Vec3
  {
    rotation.Plus(axis.Times(speed))
  }

  /** The rotation after `n` updates. */
  function RotationAfter(rotation: Vec3, speed: real, axis: Vec3, n: nat): Vec3
    decreases n
  {
    if n == 0 then rotation else Turned(RotationAfter(rotation, speed, axis, n - 1), speed, axis)
  }

  lemma ScaleSum(k: real, s: real, c: real)
    ensures (k * s) * c + s * c == ((k + 1.0) * s) * c
  {
  }

  /** The rotation grows linearly: after `n` updates it has turned by
      `n * rotationSpeed` about the axis. */
  lemma {:induction false} RotationAfterIsLinear(rotation: Vec3, speed: real, axis: Vec3, n: nat)
    ensures RotationAfter(rotation, speed, axis, n) == rotation.Plus(axis.Times(n as real * speed))
    decreases n
  {
    if n == 0 {
      assert axis.Times(0.0) == Zero;
    } else {
      RotationAfterIsLinear(rotation, speed, axis, n - 1);
      var k := (n - 1) as real;
      ScaleSum(k, speed, axis.x);
      ScaleSum(k, speed, axis.y);
      ScaleSum(k, speed, axis.z);
      assert k + 1.0 == n as real;
    }
  }

  /** Turning one way and then the other by the same amount cancels out. */
  lemma TurnBack(rotation: Vec3, speed: real, axis: Vec3)
    ensures Turned(Turned(rotation, speed, axis), -speed, axis) == rotation
  {
  }

  class RotationController {
    const id: string
    const rotationSpeed: real
    const rotationAxis: Vec3

    constructor (id: string, rotationSpeed: real, rotationAxis: Vec3)
      ensures this.id == id && this.rotationSpeed == rotationSpeed && this.rotationAxis == rotationAxis
    {
      this.id := id;
      this.rotationSpeed := rotationSpeed;
      this.rotationAxis := rotationAxis;
    }

    /** `Update`; `actor` is `null` when the actor is not an `Actor3D`, and then nothing changes.
        Only the rotation moves: translation and scale are left alone. */
    method Update(actor: Actor3D?)
      modifies actor
      ensures actor != null ==>
                actor.transform.rotationInDegrees == Turned(old(actor.transform.rotationInDegrees), rotationSpeed, rotationAxis) &&
                actor.transform.translation == old(actor.transform.translation) &&
                actor.transform.scale == old(actor.transform.scale)
    {
      if actor != null {
        actor.transform := actor.transform.(rotationInDegrees :=
          actor.transform.rotationInDegrees.Plus(rotationAxis.Times(rotationSpeed)));
      }
    }
  }
}
