/** The controllable sphere of the demo as a value: its position, its rolling
    rotation, its vertical velocity, whether it rests on the ground, and the
    map of held movement keys. The functions here are the reference definitions
    of the two key handlers and of one frame of motion; the class in module
    Sphere performs the same updates in place and is proved equal to them. */
module Motion {

  /** Horizontal speed, in units per second. */
  const MoveSpeed: real := 8.0
  /** Vertical velocity given by a jump. */
  const JumpPower: real := 7.0
  /** Vertical acceleration, in units per second squared. */
  const Gravity: real := -20.0
  /** Height of the sphere's centre when it rests on the ground (diameter 2). */
  const GroundY: real := 1.0

  /** The names of the movement keys, the domain of the key map. */
  const KeyNames: set<string> := {"w", "a", "s", "d"}
  /** The (lower-cased) key name of the space bar. */
  const JumpKey: string := " "

  datatype PlayerState = PlayerState(
    x: real, y: real, z: real,   // sphere.position
    rotX: real, rotZ: real,      // sphere.rotation.x and .z
    velocityY: real,
    isGrounded: bool,
    keys: map<string, bool>)

  /** The state after scene creation: at rest on the ground at the origin, no key held. */
  const Initial: PlayerState :=
    PlayerState(0.0, GroundY, 0.0, 0.0, 0.0, 0.0, true,
                map["w" := false, "a" := false, "s" := false, "d" := false])

  /** The key map has exactly the four movement keys. */
  predicate WellFormed(s: PlayerState) {
    s.keys.Keys == KeyNames
  }

  /** A grounded sphere sits on the ground and does not move vertically. */
  predicate RestsWhenGrounded(s: PlayerState) {
    s.isGrounded ==> s.y == GroundY && s.velocityY == 0.0
  }

  /** What holds between any two events. */
  predicate Inv(s: PlayerState) {
    WellFormed(s) && s.y >= GroundY && RestsWhenGrounded(s)
  }

  /** What holds right after a frame: in addition, grounded exactly when at ground height. */
  predicate Settled(s: PlayerState) {
    Inv(s) && (s.isGrounded <==> s.y == GroundY)
  }

  predicate AtRest(s: PlayerState) {
    s.isGrounded && s.y == GroundY && s.velocityY == 0.0
  }

  predicate IsUpper(c: char) {
    'A' <= c <= 'Z'
  }

  function LowerChar(c: char): char {
    if IsUpper(c) then (c as int + 32) as char else c
  }

  /** String.prototype.toLowerCase, restricted to ASCII letters. */
  function ToLower(key: string): (r: string)
    ensures |r| == |key|
    ensures forall i :: 0 <= i < |r| ==> !IsUpper(r[i])
    ensures forall i :: 0 <= i < |key| && !IsUpper(key[i]) ==> r[i] == key[i]
    ensures forall i :: 0 <= i < |key| && IsUpper(key[i]) ==> r[i] as int == key[i] as int + 32
  {
    if key == [] then [] else [LowerChar(key[0])] + ToLower(key[1..])
  }

  /** Reading `keys.k`: an absent key reads as not held. */
  predicate Held(keys: map<string, bool>, k: string) {
    k in keys && keys[k]
  }

  /** 1 for a held key, 0 otherwise. */
  function Ind(b: bool): real {
    if b then 1.0 else 0.0
  }

  /** The net change made by a pair of opposite keys, one adding `amount` and
      the other subtracting it: the difference of their indicators, scaled. */
  function Delta(plus: bool, minus: bool, amount: real): (d: real)
    ensures plus == minus ==> d == 0.0
    ensures plus && !minus ==> d == amount
    ensures !plus && minus ==> d == -amount
  {
    (if plus then amount else 0.0) - (if minus then amount else 0.0)
  }

  /** The same net change written with indicators, as `amount * ([plus] - [minus])`. */
  lemma DeltaByIndicators(plus: bool, minus: bool, amount: real)
    ensures Delta(plus, minus, amount) == amount * (Ind(plus) - Ind(minus))
  {
  }

  /** The keydown handler: marks a movement key held, and starts a jump on
      space, but only from the ground. */
  function OnKeyDown(s: PlayerState, key: string): (r: PlayerState)
    ensures r.keys.Keys == s.keys.Keys
    ensures ToLower(key) in s.keys ==> r.keys[ToLower(key)]
    ensures forall n :: n in s.keys && n != ToLower(key) ==> r.keys[n] == s.keys[n]
    ensures r.isGrounded <==> s.isGrounded && ToLower(key) != JumpKey
    ensures s.isGrounded && ToLower(key) == JumpKey ==> r.velocityY == JumpPower
    ensures !(s.isGrounded && ToLower(key) == JumpKey) ==> r.velocityY == s.velocityY
    ensures WellFormed(s) && !s.isGrounded && ToLower(key) == JumpKey ==> r == s
    ensures r.x == s.x && r.y == s.y && r.z == s.z && r.rotX == s.rotX && r.rotZ == s.rotZ
    ensures Inv(s) ==> Inv(r)
  {
    var k := ToLower(key);
    var marked := if k in s.keys then s.(keys := s.keys[k := true]) else s;
    if k == JumpKey && marked.isGrounded then
      marked.(velocityY := JumpPower, isGrounded := false)
    else
      marked
  }

  /** The keyup handler: marks a movement key released; touches nothing else. */
  function OnKeyUp(s: PlayerState, key: string): (r: PlayerState)
    ensures r.keys.Keys == s.keys.Keys
    ensures ToLower(key) in s.keys ==> !r.keys[ToLower(key)]
    ensures forall n :: n in s.keys && n != ToLower(key) ==> r.keys[n] == s.keys[n]
    ensures r == s.(keys := r.keys)
    ensures Inv(s) ==> Inv(r)
  {
    var k := ToLower(key);
    if k in s.keys then s.(keys := s.keys[k := false]) else s
  }

  /** Horizontal motion: `w` moves towards -z, `s` towards +z, `a` towards +x,
      `d` towards -x, each by MoveSpeed * dt. */
  function Translate(s: PlayerState, dt: real): (r: PlayerState)
    ensures r == s.(x := r.x, z := r.z)
    ensures Held(s.keys, "w") == Held(s.keys, "s") ==> r.z == s.z
    ensures Held(s.keys, "a") == Held(s.keys, "d") ==> r.x == s.x
    ensures dt >= 0.0 ==> (r.z < s.z <==> dt > 0.0 && Held(s.keys, "w") && !Held(s.keys, "s"))
    ensures dt >= 0.0 ==> (r.x < s.x <==> dt > 0.0 && Held(s.keys, "d") && !Held(s.keys, "a"))
  {
    var step := MoveSpeed * dt;
    s.(x := s.x + Delta(Held(s.keys, "a"), Held(s.keys, "d"), step),
       z := s.z + Delta(Held(s.keys, "s"), Held(s.keys, "w"), step))
  }

  /** Rolling: the rotation about x and z grows by twice the travel, with the
      sign that makes the sphere roll in the direction it moves. */
  function Roll(s: PlayerState, dt: real): (r: PlayerState)
    ensures r == s.(rotX := r.rotX, rotZ := r.rotZ)
    ensures r.rotX - s.rotX == -2.0 * (Translate(s, dt).z - s.z)
    ensures r.rotZ - s.rotZ == -2.0 * (Translate(s, dt).x - s.x)
  {
    var turn := MoveSpeed * dt * 2.0;
    s.(rotX := s.rotX + Delta(Held(s.keys, "w"), Held(s.keys, "s"), turn),
       rotZ := s.rotZ + Delta(Held(s.keys, "d"), Held(s.keys, "a"), turn))
  }

  /** Gravity and the ground: an airborne sphere takes one semi-implicit Euler
      step (velocity first, then position with the new velocity); afterwards,
      whatever happened, a sphere at or below the ground is put back on it. */
  function Fall(s: PlayerState, dt: real): (r: PlayerState)
    ensures r == s.(y := r.y, velocityY := r.velocityY, isGrounded := r.isGrounded)
    ensures r.y >= GroundY
    ensures !s.isGrounded && !r.isGrounded ==>
      r.velocityY == s.velocityY + Gravity * dt && r.y == s.y + r.velocityY * dt && r.y > GroundY
    ensures !s.isGrounded && r.isGrounded ==>
      r.y == GroundY && r.velocityY == 0.0 && s.y + (s.velocityY + Gravity * dt) * dt <= GroundY
    ensures AtRest(s) ==> r == s
    ensures RestsWhenGrounded(s) ==> r.y >= GroundY && RestsWhenGrounded(r) && (r.isGrounded <==> r.y == GroundY)
  {
    var v := if s.isGrounded then s.velocityY else s.velocityY + Gravity * dt;
    var h := if s.isGrounded then s.y else s.y + v * dt;
    if h <= GroundY then
      s.(y := GroundY, velocityY := 0.0, isGrounded := true)
    else
      s.(y := h, velocityY := v)
  }

  /** One frame of the render loop, `dt` seconds after the previous one. */
  function FrameStep(s: PlayerState, dt: real): (r: PlayerState)
    ensures r.keys == s.keys
    ensures r.x == Translate(s, dt).x && r.z == Translate(s, dt).z
    ensures r.rotX == Roll(s, dt).rotX && r.rotZ == Roll(s, dt).rotZ
    ensures r.y == Fall(s, dt).y && r.velocityY == Fall(s, dt).velocityY
    ensures r.isGrounded == Fall(s, dt).isGrounded
    ensures r.y >= GroundY
    ensures Inv(s) ==> Settled(r)
  {
    Fall(Roll(Translate(s, dt), dt), dt)
  }

  /** A key that lower-cases to a movement key acts as that key: Shift or Caps
      Lock does not stop the sphere. */
  lemma UpperCaseKeysAct(s: PlayerState)
    ensures OnKeyDown(s, "W") == OnKeyDown(s, "w") && OnKeyUp(s, "W") == OnKeyUp(s, "w")
    ensures OnKeyDown(s, "A") == OnKeyDown(s, "a") && OnKeyUp(s, "A") == OnKeyUp(s, "a")
    ensures OnKeyDown(s, "S") == OnKeyDown(s, "s") && OnKeyUp(s, "S") == OnKeyUp(s, "s")
    ensures OnKeyDown(s, "D") == OnKeyDown(s, "d") && OnKeyUp(s, "D") == OnKeyUp(s, "d")
  {
  }

  /** Pressing a key a second time (auto-repeat) changes nothing more: a held
      space bar does not jump again. */
  lemma KeyDownRepeats(s: PlayerState, key: string)
    ensures OnKeyDown(OnKeyDown(s, key), key) == OnKeyDown(s, key)
  {
  }

  /** A jump from rest survives the next frame exactly when that frame is
      shorter than JumpPower / -Gravity (0.35 s) and not empty; otherwise the
      ground clamp puts the sphere straight back on the ground. */
  lemma JumpOutlastsFrame(s: PlayerState, key: string, dt: real)
    requires AtRest(s) && ToLower(key) == JumpKey && dt >= 0.0
    ensures var r := FrameStep(OnKeyDown(s, key), dt);
      (!r.isGrounded <==> 0.0 < dt < JumpPower / -Gravity) &&
      (!r.isGrounded ==> r.velocityY == JumpPower + Gravity * dt && r.y == GroundY + r.velocityY * dt) &&
      (r.isGrounded ==> AtRest(r))
  {
  }
}
