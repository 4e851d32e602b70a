/** The character controller of the parkour demo: per-frame input handling
    (direction intent, jump, sprint) followed by vertical physics (gravity,
    movement, ground clamp, kill-plane recovery). Positions and velocities are
    `real`; the pressed keys of a frame are a set of key names. */
module Entities {

  // Tunables fixed by the field initialisers of the character.
  const Speed: real := 5.0
  const JumpHeight: real := 8.0
  const Gravity: real := -20.0
  const SprintFactor: real := 1.5
  const GroundY: real := 1.0
  const KillPlaneY: real := -10.0

  // Key names queried from the input source.
  const KeyForward: string := "KeyW"
  const KeyBack: string := "KeyS"
  const KeyLeft: string := "KeyA"
  const KeyRight: string := "KeyD"
  const KeyJump: string := "Space"
  const KeySprintLeft: string := "ShiftLeft"
  const KeySprintRight: string := "ShiftRight"

  datatype Vec3 = Vec3(x: real, y: real, z: real)

  /** A horizontal vector (the x and z components of the direction). */
  datatype Planar = Planar(x: real, z: real)

  /** The kinematic state: mesh position, vertical velocity, grounded flag. */
  datatype Body = Body(pos: Vec3, vy: real, grounded: bool)

  const Zero: Planar := Planar(0.0, 0.0)
  const Spawn: Vec3 := Vec3(0.0, 2.0, 0.0)

  /** The state the constructor leaves: at the spawn point, at rest, airborne. */
  const Initial: Body := Body(Spawn, 0.0, false)

  /** Real arithmetic has no square root, so the reciprocal of the length of a
      diagonal key vector, 1/sqrt(2), is handed to the model as a parameter. */
  predicate IsHalfRootTwo(h: real) { h > 0.0 && h * h == 0.5 }

  function NormSq(v: Planar): real { v.x * v.x + v.z * v.z }

  function Scale(v: Planar, k: real): Planar { Planar(v.x * k, v.z * k) }

  /** The contribution of two opposing keys to one axis of the direction:
      the minus key subtracts 1, the plus key adds 1. */
  function Axis(pressed: set<string>, minus: string, plus: string): (a: real)
    ensures a == 0.0 <==> (minus in pressed <==> plus in pressed)
    ensures a == -1.0 <==> minus in pressed && plus !in pressed
    ensures a == 1.0 <==> plus in pressed && minus !in pressed
  {
    (if minus in pressed then -1.0 else 0.0) + (if plus in pressed then 1.0 else 0.0)
  }

  /** The raw direction before normalisation: A/D on x, W/S on z. */
  function RawDirection(pressed: set<string>): (v: Planar)
    ensures IsKeyVector(v)
  {
    Planar(Axis(pressed, KeyLeft, KeyRight), Axis(pressed, KeyForward, KeyBack))
  }

  predicate IsUnitComponent(c: real) { c == -1.0 || c == 0.0 || c == 1.0 }

  /** A vector whose components are each -1, 0 or 1. */
  predicate IsKeyVector(v: Planar) { IsUnitComponent(v.x) && IsUnitComponent(v.z) }

  predicate Diagonal(v: Planar) { v.x != 0.0 && v.z != 0.0 }

  predicate Moving(pressed: set<string>) { RawDirection(pressed) != Zero }

  predicate Sprinting(pressed: set<string>)
  {
    KeySprintLeft in pressed || KeySprintRight in pressed
  }

  /** c * m for a key component c, written as a case split. */
  function Along(c: real, m: real): real
  {
    if c > 0.0 then m else if c < 0.0 then -m else 0.0
  }

  /** The factor normalisation multiplies by: the reciprocal of the length of
      a key vector (1/sqrt(2) on a diagonal, 1 on an axis), or 1 for the zero
      vector, whose length 0 is replaced by 1. */
  function InverseLength(v: Planar, h: real): real
    requires IsHalfRootTwo(h)
  {
    if Diagonal(v) then h else 1.0
  }

  /** Vector normalisation of a key vector: scale it by its reciprocal
      length, leaving the zero vector as it is. */
  function Normalize(v: Planar, h: real): (n: Planar)
    requires IsKeyVector(v) && IsHalfRootTwo(h)
  {
    var k := InverseLength(v, h);
    Planar(Along(v.x, k), Along(v.z, k))
  }

  /** speed*dt, times 1.5 with either Shift key held. */
  function StepLength(pressed: set<string>, dt: real): real
  {
    if Sprinting(pressed) then Speed * dt * SprintFactor else Speed * dt
  }

  /** A key vector normalised and scaled to the given step length. */
  function Displacement(raw: Planar, step: real, h: real): Planar
    requires IsHalfRootTwo(h)
  {
    var m := if Diagonal(raw) then step * h else step;
    Planar(Along(raw.x, m), Along(raw.z, m))
  }

  /** The per-frame horizontal displacement computed by input handling: the
      raw direction normalised, scaled by speed*dt, then by 1.5 when
      sprinting. */
  function Intent(pressed: set<string>, dt: real, h: real): Planar
    requires IsHalfRootTwo(h)
  {
    var base := Scale(Normalize(RawDirection(pressed), h), Speed * dt);
    if Sprinting(pressed) then Scale(base, SprintFactor) else base
  }

  /** The jump trigger: only from the ground, and it leaves the ground. */
  function Jump(b: Body, pressed: set<string>): Body
  {
    if KeyJump in pressed && b.grounded then b.(vy := JumpHeight, grounded := false) else b
  }

  /** Gravity, then horizontal displacement and vertical integration. */
  function Integrate(b: Body, dir: Planar, dt: real): Body
  {
    var vy := b.vy + Gravity * dt;
    Body(Vec3(b.pos.x + dir.x, b.pos.y + vy * dt, b.pos.z + dir.z), vy, b.grounded)
  }

  /** The flat ground at y = 1. */
  function GroundClamp(b: Body): (r: Body)
    ensures r.pos.y >= GroundY
    ensures r.pos.x == b.pos.x && r.pos.z == b.pos.z
    ensures b.pos.y <= GroundY ==> r.pos.y == GroundY && r.vy == 0.0 && r.grounded
    ensures b.pos.y > GroundY ==> r == b
  {
    if b.pos.y <= GroundY then Body(b.pos.(y := GroundY), 0.0, true) else b
  }

  /** Recovery from falling out of the world; the grounded flag is kept. */
  function KillPlane(b: Body): (r: Body)
    ensures r.pos.y >= KillPlaneY
    ensures r.grounded == b.grounded
    ensures b.pos.y < KillPlaneY ==> r.pos == Spawn && r.vy == 0.0
    ensures b.pos.y >= KillPlaneY ==> r == b
  {
    if b.pos.y < KillPlaneY then Body(Spawn, 0.0, b.grounded) else b
  }

  /** The physics half of a frame, kill-plane test included as written. */
  function Physics(b: Body, dir: Planar, dt: real): Body
  {
    KillPlane(GroundClamp(Integrate(b, dir, dt)))
  }

  /** One frame: input handling, then physics with the direction it computed. */
  function Step(b: Body, pressed: set<string>, dt: real, h: real): Body
    requires IsHalfRootTwo(h)
  {
    Physics(Jump(b, pressed), Intent(pressed, dt, h), dt)
  }

  /** The controller's invariant: never below the ground, and grounded only
      when resting on it. */
  predicate Inv(b: Body)
  {
    b.pos.y >= GroundY && (b.grounded ==> b.pos.y == GroundY && b.vy == 0.0)
  }

  datatype Frame = Frame(dt: real, pressed: set<string>)

  /** The state after a sequence of frames. */
  function Run(b: Body, frames: seq<Frame>, h: real): Body
    requires IsHalfRootTwo(h)
    decreases |frames|
  {
    if frames == [] then b
    else Run(Step(b, frames[0].pressed, frames[0].dt, h), frames[1..], h)
  }

  // ---------------------------------------------------------------------
  // Input handling

  /** Each raw component is -1, 0 or 1, and opposite keys cancel. */
  lemma RawDirectionKeys(pressed: set<string>)
    ensures IsKeyVector(RawDirection(pressed))
    ensures RawDirection(pressed).z == -1.0 <==> KeyForward in pressed && KeyBack !in pressed
    ensures RawDirection(pressed).z == 1.0 <==> KeyBack in pressed && KeyForward !in pressed
    ensures RawDirection(pressed).x == -1.0 <==> KeyLeft in pressed && KeyRight !in pressed
    ensures RawDirection(pressed).x == 1.0 <==> KeyRight in pressed && KeyLeft !in pressed
    ensures RawDirection(pressed).z == 0.0 <==> (KeyForward in pressed <==> KeyBack in pressed)
    ensures RawDirection(pressed).x == 0.0 <==> (KeyLeft in pressed <==> KeyRight in pressed)
  {
  }

  lemma AlongSquare(c: real, m: real)
    requires IsUnitComponent(c)
    ensures Along(c, m) * Along(c, m) == c * c * (m * m)
  {
  }

  /** Normalisation gives a unit vector from a non-zero key vector and the
      zero vector from the zero vector. */
  lemma NormalizeUnit(v: Planar, h: real)
    requires IsKeyVector(v) && IsHalfRootTwo(h)
    ensures NormSq(Normalize(v, h)) == if v == Zero then 0.0 else 1.0
    ensures v == Zero ==> Normalize(v, h) == Zero
  {
    var n := Normalize(v, h);
    if Diagonal(v) {
      assert n.x * n.x == h * h by { AlongSquare(v.x, h); }
      assert n.z * n.z == h * h by { AlongSquare(v.z, h); }
    } else {
      assert n == v;
    }
  }

  /** Normalisation keeps the direction: each component keeps its sign, and
      the two components keep their ratio. */
  lemma NormalizeKeepsDirection(v: Planar, h: real)
    requires IsKeyVector(v) && IsHalfRootTwo(h)
    ensures var n := Normalize(v, h);
            n.x * v.z == n.z * v.x &&
            (v.x > 0.0 <==> n.x > 0.0) && (v.x < 0.0 <==> n.x < 0.0) &&
            (v.z > 0.0 <==> n.z > 0.0) && (v.z < 0.0 <==> n.z < 0.0)
  {
  }

  lemma AlongScale(c: real, k: real, a: real)
    ensures Along(c, k) * a == Along(c, k * a)
  {
  }

  /** Scaling the step length scales the displacement. */
  lemma DisplacementScale(raw: Planar, step: real, c: real, h: real)
    requires IsHalfRootTwo(h)
    ensures Displacement(raw, step * c, h) == Scale(Displacement(raw, step, h), c)
  {
    var m := if Diagonal(raw) then step * h else step;
    assert (if Diagonal(raw) then step * c * h else step * c) == m * c;
    AlongScale(raw.x, m, c);
    AlongScale(raw.z, m, c);
  }

  /** The displacement is the normalised key vector scaled by the step. */
  lemma DisplacementIsScaledNormal(raw: Planar, step: real, h: real)
    requires IsKeyVector(raw) && IsHalfRootTwo(h)
    ensures Displacement(raw, step, h) == Scale(Normalize(raw, h), step)
  {
    var q := InverseLength(raw, h);
    assert (if Diagonal(raw) then step * h else step) == q * step;
    AlongScale(raw.x, q, step);
    AlongScale(raw.z, q, step);
  }

  /** A non-zero key vector is displaced by exactly the step length. */
  lemma DisplacementMagnitude(raw: Planar, step: real, h: real)
    requires IsKeyVector(raw) && IsHalfRootTwo(h)
    ensures NormSq(Displacement(raw, step, h)) == if raw == Zero then 0.0 else step * step
  {
    var d := Displacement(raw, step, h);
    if Diagonal(raw) {
      var m := step * h;
      assert m * m == (step * step) * (h * h);
      assert d.x * d.x == m * m by { AlongSquare(raw.x, m); }
      assert d.z * d.z == m * m by { AlongSquare(raw.z, m); }
    } else {
      AlongSquare(raw.x, step);
      AlongSquare(raw.z, step);
      assert raw.x * raw.x + raw.z * raw.z == if raw == Zero then 0.0 else 1.0;
    }
  }

  /** The displacement is the raw direction normalised and scaled to the
      step length: speed*dt, times 1.5 when sprinting. */
  lemma IntentIsDisplacement(pressed: set<string>, dt: real, h: real)
    requires IsHalfRootTwo(h)
    ensures Intent(pressed, dt, h) == Displacement(RawDirection(pressed), StepLength(pressed, dt), h)
  {
    var raw := RawDirection(pressed);
    DisplacementIsScaledNormal(raw, Speed * dt, h);
    DisplacementScale(raw, Speed * dt, SprintFactor, h);
  }

  /** The displacement has squared length (speed*dt*factor)^2 when some net
      direction is held and 0 otherwise, whatever keys produce it. */
  lemma IntentMagnitude(pressed: set<string>, dt: real, h: real)
    requires IsHalfRootTwo(h)
    ensures var k := StepLength(pressed, dt);
            NormSq(Intent(pressed, dt, h)) == if Moving(pressed) then k * k else 0.0
  {
    RawDirectionKeys(pressed);
    IntentIsDisplacement(pressed, dt, h);
    DisplacementMagnitude(RawDirection(pressed), StepLength(pressed, dt), h);
  }

  /** Diagonal movement is exactly as fast as movement along one axis. */
  lemma DiagonalNotFaster(diagonal: set<string>, straight: set<string>, dt: real, h: real)
    requires IsHalfRootTwo(h)
    requires Diagonal(RawDirection(diagonal))
    requires Moving(straight) && !Diagonal(RawDirection(straight))
    requires Sprinting(diagonal) == Sprinting(straight)
    ensures NormSq(Intent(diagonal, dt, h)) == NormSq(Intent(straight, dt, h))
  {
    IntentMagnitude(diagonal, dt, h);
    IntentMagnitude(straight, dt, h);
  }

  /** Holding either Shift key multiplies the displacement by exactly 1.5,
      all other keys being equal. */
  lemma SprintMultiplies(pressed: set<string>, dt: real, h: real)
    requires IsHalfRootTwo(h)
    requires Sprinting(pressed)
    ensures var walking := pressed - {KeySprintLeft, KeySprintRight};
            Intent(pressed, dt, h) == Scale(Intent(walking, dt, h), SprintFactor)
  {
    var walking := pressed - {KeySprintLeft, KeySprintRight};
    assert RawDirection(walking) == RawDirection(pressed) by {
      assert Axis(walking, KeyLeft, KeyRight) == Axis(pressed, KeyLeft, KeyRight);
      assert Axis(walking, KeyForward, KeyBack) == Axis(pressed, KeyForward, KeyBack);
    }
    assert !Sprinting(walking);
    IntentIsDisplacement(pressed, dt, h);
    IntentIsDisplacement(walking, dt, h);
    DisplacementScale(RawDirection(pressed), Speed * dt, SprintFactor, h);
  }

  /** The jump key is ignored while airborne: the frame is the same as
      without it. */
  lemma JumpIgnoredAirborne(b: Body, pressed: set<string>, dt: real, h: real)
    requires IsHalfRootTwo(h)
    requires !b.grounded
    ensures Step(b, pressed, dt, h) == Step(b, pressed - {KeyJump}, dt, h)
  {
    var other := pressed - {KeyJump};
    assert RawDirection(other) == RawDirection(pressed) by {
      assert Axis(other, KeyLeft, KeyRight) == Axis(pressed, KeyLeft, KeyRight);
      assert Axis(other, KeyForward, KeyBack) == Axis(pressed, KeyForward, KeyBack);
    }
    assert Sprinting(other) == Sprinting(pressed);
  }

  // ---------------------------------------------------------------------
  // Physics

  /** The respawn branch can never run: the ground clamp has already put y
      at or above the ground, which lies above the kill plane. */
  lemma KillPlaneUnreachable(b: Body, dir: Planar, dt: real)
    ensures Physics(b, dir, dt) == GroundClamp(Integrate(b, dir, dt))
    ensures Physics(b, dir, dt).pos.y >= GroundY
  {
  }

  /** A frame ends on or above the ground; it ends on the ground, at rest and
      grounded, exactly when the integrated height reached the ground. */
  lemma StepLanding(b: Body, pressed: set<string>, dt: real, h: real)
    requires IsHalfRootTwo(h)
    ensures var falling := Integrate(Jump(b, pressed), Intent(pressed, dt, h), dt);
            var r := Step(b, pressed, dt, h);
            r.pos.y >= GroundY &&
            (falling.pos.y <= GroundY ==> r.pos.y == GroundY && r.vy == 0.0 && r.grounded) &&
            (falling.pos.y > GroundY ==> r == falling)
  {
    KillPlaneUnreachable(Jump(b, pressed), Intent(pressed, dt, h), dt);
  }

  /** Without movement keys the frame leaves x and z where they were. */
  lemma NoInertia(b: Body, pressed: set<string>, dt: real, h: real)
    requires IsHalfRootTwo(h)
    requires KeyForward !in pressed && KeyBack !in pressed
    requires KeyLeft !in pressed && KeyRight !in pressed
    ensures Step(b, pressed, dt, h).pos.x == b.pos.x
    ensures Step(b, pressed, dt, h).pos.z == b.pos.z
  {
    assert !Moving(pressed);
    IdleIntent(pressed, dt, h);
    assert Step(b, pressed, dt, h) == Physics(Jump(b, pressed), Zero, dt);
    KillPlaneUnreachable(Jump(b, pressed), Zero, dt);
  }

  /** Without a net direction the displacement is zero. */
  lemma IdleIntent(pressed: set<string>, dt: real, h: real)
    requires IsHalfRootTwo(h)
    requires !Moving(pressed)
    ensures Intent(pressed, dt, h) == Zero
  {
    assert RawDirection(pressed) == Zero;
  }

  /** A jump fires exactly when Space is held on the ground; gravity already
      acts in that frame, so the velocity before the clamp is 8 - 20*dt. */
  lemma JumpVelocity(b: Body, pressed: set<string>, dt: real, h: real)
    requires IsHalfRootTwo(h)
    ensures var fired := KeyJump in pressed && b.grounded;
            var falling := Integrate(Jump(b, pressed), Intent(pressed, dt, h), dt);
            (fired ==> falling.vy == JumpHeight + Gravity * dt && !falling.grounded) &&
            (!fired ==> falling.vy == b.vy + Gravity * dt && falling.grounded == b.grounded)
  {
  }

  /** When the state was valid, the flag after a frame is set exactly when the
      integrated height reached the ground: a held ground contact is renewed
      every frame because gravity always pulls below y = 1. */
  lemma GroundedIff(b: Body, pressed: set<string>, dt: real, h: real)
    requires IsHalfRootTwo(h)
    requires Inv(b)
    ensures var falling := Integrate(Jump(b, pressed), Intent(pressed, dt, h), dt);
            Step(b, pressed, dt, h).grounded <==> falling.pos.y <= GroundY
  {
    var j := Jump(b, pressed);
    var falling := Integrate(j, Intent(pressed, dt, h), dt);
    StepLanding(b, pressed, dt, h);
    if j.grounded {
      assert j.pos.y == GroundY && j.vy == 0.0;
      assert dt * dt >= 0.0;
      assert falling.pos.y == GroundY + Gravity * (dt * dt);
    }
  }

  /** One frame preserves the invariant, for every time step. */
  lemma StepPreservesInv(b: Body, pressed: set<string>, dt: real, h: real)
    requires IsHalfRootTwo(h)
    requires Inv(b)
    ensures Inv(Step(b, pressed, dt, h))
  {
    GroundedIff(b, pressed, dt, h);
    StepLanding(b, pressed, dt, h);
  }

  /** The invariant holds from construction. */
  lemma InitialInv()
    ensures Inv(Initial) && !Initial.grounded && Initial.pos == Spawn
  {
  }

  /** Any sequence of frames preserves the invariant. */
  lemma {:induction false} RunPreservesInv(b: Body, frames: seq<Frame>, h: real)
    requires IsHalfRootTwo(h)
    requires Inv(b)
    ensures Inv(Run(b, frames, h))
    decreases |frames|
  {
    if frames != [] {
      StepPreservesInv(b, frames[0].pressed, frames[0].dt, h);
      RunPreservesInv(Step(b, frames[0].pressed, frames[0].dt, h), frames[1..], h);
    }
  }

  /** Once grounded, the character stays on the ground at rest for as long as
      Space is not pressed. */
  lemma {:induction false} StaysGrounded(b: Body, frames: seq<Frame>, h: real)
    requires IsHalfRootTwo(h)
    requires Inv(b) && b.grounded
    requires forall i :: 0 <= i < |frames| ==> KeyJump !in frames[i].pressed
    ensures var r := Run(b, frames, h);
            r.grounded && r.pos.y == GroundY && r.vy == 0.0
    decreases |frames|
  {
    if frames != [] {
      var f := frames[0];
      var next := Step(b, f.pressed, f.dt, h);
      GroundedIff(b, f.pressed, f.dt, h);
      StepPreservesInv(b, f.pressed, f.dt, h);
      assert Jump(b, f.pressed) == b;
      assert next.grounded by {
        assert f.dt * f.dt >= 0.0;
        assert Integrate(b, Intent(f.pressed, f.dt, h), f.dt).pos.y == GroundY + Gravity * (f.dt * f.dt);
      }
      StaysGrounded(next, frames[1..], h);
    }
  }

  /** A jump from rest on the ground with dt = 0.1: the velocity is
      8 - 20*0.1 = 6 and the height 1 + 6*0.1 = 1.6, airborne. */
  lemma JumpScenario(h: real)
    requires IsHalfRootTwo(h)
    ensures Step(Body(Vec3(0.0, 1.0, 0.0), 0.0, true), {KeyJump}, 0.1, h)
         == Body(Vec3(0.0, 1.6, 0.0), 6.0, false)
  {
    assert !Moving({KeyJump});
    IdleIntent({KeyJump}, 0.1, h);
  }

  /** From spawn with no input and dt = 1 the character lands in the first
      frame, and stays on the ground for the next nineteen. */
  lemma LandingScenario(h: real)
    requires IsHalfRootTwo(h)
    ensures Step(Initial, {}, 1.0, h) == Body(Vec3(0.0, 1.0, 0.0), 0.0, true)
    ensures var idle := seq(19, _ => Frame(1.0, {}));
            Run(Step(Initial, {}, 1.0, h), idle, h).pos.y == GroundY
  {
    assert RawDirection({}) == Zero;
    var landed := Step(Initial, {}, 1.0, h);
    var idle := seq(19, _ => Frame(1.0, {}));
    StaysGrounded(landed, idle, h);
  }

  // ---------------------------------------------------------------------
  // The controller object

  class Character {
    var x: real
    var y: real
    var z: real
    var vy: real
    var isGrounded: bool
    var dirX: real
    var dirZ: real

    function State(): Body
      reads this
    {
      Body(Vec3(x, y, z), vy, isGrounded)
    }

    predicate Valid()
      reads this
    {
      Inv(State())
    }

    constructor ()
      ensures State() == Initial && Valid()
      ensures dirX == 0.0 && dirZ == 0.0
    {
      x, y, z := 0.0, 2.0, 0.0;
      vy := 0.0;
      isGrounded := false;
      dirX, dirZ := 0.0, 0.0;
    }

    /** One frame: input handling, then physics. */
    method Update(dt: real, pressed: set<string>, h: real)
      requires Valid() && IsHalfRootTwo(h)
      modifies this
      ensures Valid()
      ensures State() == Step(old(State()), pressed, dt, h)
      ensures Planar(dirX, dirZ) == Intent(pressed, dt, h)
    {
      HandleInput(dt, pressed, h);
      ApplyPhysics(dt);
      StepPreservesInv(old(State()), pressed, dt, h);
    }

    method HandleInput(dt: real, pressed: set<string>, h: real)
      requires IsHalfRootTwo(h)
      modifies this
      ensures Planar(dirX, dirZ) == Intent(pressed, dt, h)
      ensures State() == Jump(old(State()), pressed)
    {
      ResetDirection();
      AddMovementKeys(pressed);
      NormalizeAndScale(Speed * dt, h);
      TriggerJump(pressed);
      ApplySprint(pressed);
    }

    /** A jump starts only from the ground, and leaves it. */
    method TriggerJump(pressed: set<string>)
      modifies this
      ensures State() == Jump(old(State()), pressed)
      ensures dirX == old(dirX) && dirZ == old(dirZ)
    {
      if KeyJump in pressed && isGrounded {
        vy := JumpHeight;
        isGrounded := false;
      }
    }

    /** Either Shift key scales the direction by 1.5. */
    method ApplySprint(pressed: set<string>)
      modifies this
      ensures Planar(dirX, dirZ) == if Sprinting(pressed) then Scale(old(Planar(dirX, dirZ)), SprintFactor) else old(Planar(dirX, dirZ))
      ensures State() == old(State())
    {
      if KeySprintLeft in pressed || KeySprintRight in pressed {
        dirX, dirZ := dirX * SprintFactor, dirZ * SprintFactor;
      }
    }

    method ResetDirection()
      modifies this
      ensures dirX == 0.0 && dirZ == 0.0
      ensures State() == old(State())
    {
      dirX, dirZ := 0.0, 0.0;
    }

    /** Normalise the direction, then scale it. */
    method NormalizeAndScale(k: real, h: real)
      requires IsKeyVector(Planar(dirX, dirZ)) && IsHalfRootTwo(h)
      modifies this
      ensures Planar(dirX, dirZ) == Scale(Normalize(old(Planar(dirX, dirZ)), h), k)
      ensures State() == old(State())
    {
      var unit := Normalize(Planar(dirX, dirZ), h);
      dirX, dirZ := unit.x * k, unit.z * k;
    }

    /** W and S move the direction along z, A and D along x. */
    method AddMovementKeys(pressed: set<string>)
      requires dirX == 0.0 && dirZ == 0.0
      modifies this
      ensures Planar(dirX, dirZ) == RawDirection(pressed)
      ensures State() == old(State())
    {
      if KeyForward in pressed { dirZ := dirZ - 1.0; }
      if KeyBack in pressed { dirZ := dirZ + 1.0; }
      if KeyLeft in pressed { dirX := dirX - 1.0; }
      if KeyRight in pressed { dirX := dirX + 1.0; }
    }

    method ApplyPhysics(dt: real)
      modifies this
      ensures State() == Physics(old(State()), Planar(old(dirX), old(dirZ)), dt)
      ensures dirX == old(dirX) && dirZ == old(dirZ)
    {
      vy := vy + Gravity * dt;

      x := x + dirX;
      z := z + dirZ;
      y := y + vy * dt;

      if y <= GroundY {
        y := GroundY;
        vy := 0.0;
        isGrounded := true;
      }

      // the kill-plane test, on the state the clamp left
      var recovered := KillPlane(State());
      x, y, z := recovered.pos.x, recovered.pos.y, recovered.pos.z;
      vy := recovered.vy;
    }

    /** The current position, as a value. */
    method GetPosition() returns (p: Vec3)
      requires Valid()
      ensures p == State().pos
      ensures p.y >= GroundY
    {
      p := Vec3(x, y, z);
    }
  }
}
