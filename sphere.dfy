/** The sphere as the render loop sees it: mutable position, rotation,
    vertical velocity, grounded flag and key map, updated in place by the two
    keyboard handlers and once per frame. */
module Sphere {
  import opened Motion

  class Player {
    var x: real
    var y: real
    var z: real
    var rotX: real
    var rotZ: real
    var velocityY: real
    var isGrounded: bool
    var keys: map<string, bool>

    /** The current fields as a value. */
    function State(): PlayerState
      reads this
    {
      PlayerState(x, y, z, rotX, rotZ, velocityY, isGrounded, keys)
    }

    ghost predicate Valid()
      reads this
    {
      Inv(State())
    }

    constructor ()
      ensures State() == Initial && Valid()
    {
      x, y, z := 0.0, GroundY, 0.0;
      rotX, rotZ := 0.0, 0.0;
      velocityY := 0.0;
      isGrounded := true;
      keys := map["w" := false, "a" := false, "s" := false, "d" := false];
    }

    method KeyDown(key: string)
      modifies this
      ensures State() == OnKeyDown(old(State()), key)
      ensures old(Valid()) ==> Valid()
    {
      var k := ToLower(key);
      if k in keys {
        keys := keys[k := true];
      }
      if k == JumpKey && isGrounded {
        velocityY := JumpPower;
        isGrounded := false;
      }
    }

    method KeyUp(key: string)
      modifies this
      ensures State() == OnKeyUp(old(State()), key)
      ensures old(Valid()) ==> Valid()
    {
      var k := ToLower(key);
      if k in keys {
        keys := keys[k := false];
      }
    }

    /** One pass of the before-render callback; the engine reports the time
        since the previous frame in milliseconds. */
    method Frame(deltaMs: real)
      modifies this
      ensures State() == FrameStep(old(State()), deltaMs / 1000.0)
      ensures y >= GroundY
      ensures old(Valid()) ==> Valid() && (isGrounded <==> y == GroundY)
    {
      var dt := deltaMs / 1000.0;
      Move(dt);
      RollAlong(dt);
      ApplyGravity(dt);
    }

    /** Moves the sphere along the world axes for each held key. */
    method Move(dt: real)
      modifies this
      ensures State() == Translate(old(State()), dt)
    {
      if Held(keys, "w") { z := z - MoveSpeed * dt; }
      if Held(keys, "s") { z := z + MoveSpeed * dt; }
      if Held(keys, "a") { x := x + MoveSpeed * dt; }
      if Held(keys, "d") { x := x - MoveSpeed * dt; }
    }

    /** Turns the sphere about the axis perpendicular to each held key's direction. */
    method RollAlong(dt: real)
      modifies this
      ensures State() == Roll(old(State()), dt)
    {
      if Held(keys, "w") { rotX := rotX + MoveSpeed * dt * 2.0; }
      if Held(keys, "s") { rotX := rotX - MoveSpeed * dt * 2.0; }
      if Held(keys, "a") { rotZ := rotZ - MoveSpeed * dt * 2.0; }
      if Held(keys, "d") { rotZ := rotZ + MoveSpeed * dt * 2.0; }
    }

    /** Falls while airborne, then puts a sphere at or below the ground back on it. */
    method ApplyGravity(dt: real)
      modifies this
      ensures State() == Fall(old(State()), dt)
    {
      if !isGrounded {
        velocityY := velocityY + Gravity * dt;
        y := y + velocityY * dt;
      }
      if y <= GroundY {
        y := GroundY;
        velocityY := 0.0;
        isGrounded := true;
      }
    }
  }
}
