# Parkour demo core, modelled in Dafny

This project models the gameplay core of a small browser parkour game built with THREE.js:

- **The character controller** (`src/game/entities/Character.ts`). Each frame it:
  - reads the keyboard and builds a horizontal move vector;
  - starts a jump when Space is held on the ground;
  - applies gravity;
  - moves the mesh;
  - clamps the character to the flat ground at y = 1;
  - tests the kill plane at y = -10.
- **Zone switching** (`src/game/levels/ZoneManager.ts`). The zones "rooftop", "construction" and "cyber" are registered as groups. Loading a zone removes every zone from the scene and then adds the requested one, if it exists.
- **The heads-up display** (`src/game/ui/HUD.ts`):
  - a stamina bar whose width is the stamina percentage and whose colour is green above 50 %, yellow above 25 % and red otherwise;
  - an XP bar;
  - the "Level n" and "Score: n" labels.

## Modules

Each module mirrors one source file.

- `Entities.dfy`:
  - The state of a frame is a `Body`: the mesh position, the vertical velocity and the grounded flag.
  - `Step` is a function giving one frame as a value. `Run` folds `Step` over a sequence of frames.
  - The class `Character` has the fields that the source updates in place. Its `Update` method is proved to leave the state `Step` describes, and to keep the invariant `Inv`: never below the ground, and grounded only while resting on it at zero velocity.
  - Real arithmetic has no square root. The reciprocal length of a diagonal key vector, 1/√2, is therefore passed in as a parameter `h` with `h > 0 && h*h == 0.5`.
- `Levels.dfy`:
  - The scene is the set of objects it shows, and a zone is a `Group` object seen only as an identity.
  - `AfterLoad` is the scene after a load.
  - `ZoneManager.LoadZone` is the source's removal loop followed by the add. It is proved to leave exactly `AfterLoad`.
- `Ui.dfy`:
  - A JavaScript number is a `Num`: a finite value, an infinity or NaN. This lets a zero maximum give the same result as in the browser.
  - The colour decision is a function. Label texts are decimal strings with a parse-back round trip.
  - The class `Hud` holds the fill elements and the label markup that the update methods write.

### Behaviour that differs from what one might expect (the model follows the code)

- **Jump velocity.** One might expect a jump's starting velocity of 8 to be untouched by gravity in its first frame. The code runs input handling before physics, so that frame's gravity already applies. With dt = 0.1 the velocity becomes 6 and the height 1.6 (`Entities.JumpScenario`).
- **Kill plane.** The code has a respawn at (0, 2, 0) with zero velocity for a character below y = -10 (`Entities.KillPlane`). The ground clamp runs before it and leaves y ≥ 1, so the respawn can never fire, for any time step (`Entities.KillPlaneUnreachable`). The model keeps the test, applied as written to the state the clamp leaves. Were it reached, it would keep the grounded flag as it was.
- **Time step.** A caller would normally pass dt ≥ 0. The invariant holds for every real dt, so `Update` does not require it.

## Model

| member | source | states |
|---|---|---|
| Entities.Axis | src/game/entities/Character.ts:74-77 | an axis is 0 exactly when both or neither of its two keys is held, -1 with only the minus key, 1 with only the plus key |
| Entities.RawDirection | src/game/entities/Character.ts:74-77 | the raw direction built from the four movement keys has each component -1, 0 or 1 |
| Entities.RawDirectionKeys | src/game/entities/Character.ts:74-77 | every raw component is -1, 0 or 1; W alone gives z = -1, S alone z = 1, A alone x = -1, D alone x = 1; opposite keys cancel |
| Entities.NormalizeUnit | src/game/entities/Character.ts:79 | normalising a non-zero key vector gives unit length; the zero vector stays zero instead of being divided by 0 |
| Entities.NormalizeKeepsDirection | src/game/entities/Character.ts:79 | normalising keeps the sign of each component and the ratio between them |
| Entities.DisplacementIsScaledNormal | src/game/entities/Character.ts:79-80 | the displacement of a key vector by a step length equals the normalised vector scaled by that step |
| Entities.IntentIsDisplacement | src/game/entities/Character.ts:74-91 | the direction input handling computes is the raw key vector normalised and scaled to speed·dt, times 1.5 when sprinting |
| Entities.IntentMagnitude | src/game/entities/Character.ts:79-91 | the move vector has squared length (speed·dt·factor)² whenever a net direction is held, and 0 otherwise |
| Entities.DiagonalNotFaster | src/game/entities/Character.ts:79-80 | a diagonal key pair moves exactly as far per frame as a single axis key with the same sprint state |
| Entities.SprintMultiplies | src/game/entities/Character.ts:89-91 | holding either Shift key makes the move vector exactly 1.5 times the one without the Shift keys |
| Entities.IdleIntent | src/game/entities/Character.ts:71-80 | with no net direction the move vector is zero |
| Entities.JumpIgnoredAirborne | src/game/entities/Character.ts:83-86 | while airborne, a frame with Space held equals the same frame without it |
| Entities.JumpVelocity | src/game/entities/Character.ts:83-96 | a jump fires exactly when Space is held on the ground; the velocity after gravity is then 8 + (-20)·dt and the flag is cleared, otherwise velocity and flag carry over with gravity applied |
| Entities.GroundClamp | src/game/entities/Character.ts:104-108 | after the ground test y ≥ 1, x and z are untouched; a body at or below 1 ends at 1, at rest and grounded; one above is unchanged |
| Entities.KillPlane | src/game/entities/Character.ts:111-114 | a body below -10 is moved to (0, 2, 0) with zero velocity; one at or above -10 is unchanged; the grounded flag is kept either way |
| Entities.KillPlaneUnreachable | src/game/entities/Character.ts:104-114 | the physics phase equals the ground clamp alone and ends at y ≥ 1, so the respawn never happens |
| Entities.StepLanding | src/game/entities/Character.ts:94-108 | a frame ends on or above the ground; on it, at rest and grounded when the integrated height reached y = 1, and at the integrated state otherwise |
| Entities.NoInertia | src/game/entities/Character.ts:99-100 | without movement keys a frame leaves x and z unchanged: horizontal motion has no inertia |
| Entities.GroundedIff | src/game/entities/Character.ts:83-108 | from a valid state, the flag after a frame is set exactly when the integrated height reached the ground |
| Entities.StepPreservesInv | src/game/entities/Character.ts:65-115 | one frame keeps the invariant: y ≥ 1, and grounded only at y = 1 with zero vertical velocity |
| Entities.InitialInv | src/game/entities/Character.ts:62 | the constructed state (spawn (0, 2, 0), at rest, not grounded) satisfies the invariant |
| Entities.RunPreservesInv | src/game/entities/Character.ts:65-68 | any sequence of frames keeps the invariant |
| Entities.StaysGrounded | src/game/entities/Character.ts:83-108 | once grounded, the character stays grounded at y = 1 with zero velocity through every frame without Space |
| Entities.JumpScenario | src/game/entities/Character.ts:83-101 | a jump from (0, 1, 0) with dt = 0.1 ends at (0, 1.6, 0), with velocity 6, airborne |
| Entities.LandingScenario | src/game/entities/Character.ts:94-108 | from spawn with dt = 1 and no keys the character lands at (0, 1, 0) grounded in the first frame and is still at y = 1 after nineteen more |
| Entities.Character.constructor | src/game/entities/Character.ts:62 | the new controller is at (0, 2, 0), at rest, not grounded, with a zero direction, and satisfies the invariant |
| Entities.Character.Update | src/game/entities/Character.ts:65-68 | one frame: the new state is `Step` of the old state, the stored direction is the frame's move vector, and the invariant is kept |
| Entities.Character.HandleInput | src/game/entities/Character.ts:70-92 | input handling leaves the move vector in the direction fields and applies the jump trigger to the state |
| Entities.Character.TriggerJump | src/game/entities/Character.ts:83-86 | the state becomes `Jump` of the old state: velocity 8 and not grounded when Space is held on the ground, unchanged otherwise; the direction is untouched |
| Entities.Character.ApplySprint | src/game/entities/Character.ts:89-91 | the direction is multiplied by 1.5 when either Shift key is held and kept otherwise; the kinematic state is untouched |
| Entities.Character.ResetDirection | src/game/entities/Character.ts:71 | the direction is cleared and the kinematic state is untouched |
| Entities.Character.AddMovementKeys | src/game/entities/Character.ts:74-77 | from a cleared direction, the four key tests leave the raw key vector |
| Entities.Character.NormalizeAndScale | src/game/entities/Character.ts:79-80 | a direction whose components are each -1, 0 or 1 becomes its normalised form times speed·dt |
| Entities.Character.ApplyPhysics | src/game/entities/Character.ts:94-115 | the new state is the physics phase (gravity, movement, ground clamp, kill plane) of the old state with the stored direction |
| Entities.Character.GetPosition | src/game/entities/Character.ts:117-119 | the returned position is the mesh position, and it is never below the ground |
| Levels.LoadShowsOnlyRequested | src/game/levels/ZoneManager.ts:117-128 | loading a registered zone leaves it as the only zone in the scene |
| Levels.LoadUnknownShowsNone | src/game/levels/ZoneManager.ts:124-127 | loading an unknown name leaves no zone in the scene |
| Levels.LoadKeepsOtherObjects | src/game/levels/ZoneManager.ts:119-127 | objects that are not zones are in the scene after a load exactly when they were before |
| Levels.LoadIdempotent | src/game/levels/ZoneManager.ts:117-128 | loading the same name twice gives the scene loading it once gives |
| Levels.ZoneManager.constructor | src/game/levels/ZoneManager.ts:7-17 | the three zones are registered as distinct new groups, none of them shown, and the scene is left as it was |
| Levels.ZoneManager.CreateZones | src/game/levels/ZoneManager.ts:12-17 | rooftop, construction and cyber are created as distinct new groups and registered in that order |
| Levels.ZoneManager.Register | src/game/levels/ZoneManager.ts:53 | the name maps to the group; a new name goes to the end of the key order, an existing one keeps its place (the same assignment registers "construction" at line 78 and "cyber" at line 114) |
| Levels.ZoneManager.LoadZone | src/game/levels/ZoneManager.ts:117-128 | the scene after the removal loop and the add is `AfterLoad` of the scene before: only the requested zone shown, or none for an unknown name |
| Levels.ZoneManager.GetAvailableZones | src/game/levels/ZoneManager.ts:130-132 | the names are rooftop, construction, cyber in registration order, and a name is listed exactly when it is registered |
| Ui.Percentage | src/game/ui/HUD.ts:78 | the percentage times the maximum is the value times 100 when the maximum is non-zero; with a zero maximum it is +Infinity, -Infinity or NaN by the sign of the value |
| Ui.StaminaBands | src/game/ui/HUD.ts:77-91 | with a positive maximum the bar is green exactly above half stamina, yellow above a quarter up to half, red at a quarter or less |
| Ui.ZeroMaxColour | src/game/ui/HUD.ts:77-91 | with a zero maximum the bar is green for positive stamina and red otherwise, NaN comparing false |
| Ui.BandBoundaries | src/game/ui/HUD.ts:84-90 | the thresholds are strict: exactly 50 % is yellow and exactly 25 % is red |
| Ui.StaminaColourMonotone | src/game/ui/HUD.ts:84-90 | with a fixed positive maximum, more stamina never gives a worse colour |
| Ui.NatString | src/game/ui/HUD.ts:103 | the decimal text of a number is non-empty and made of digits |
| Ui.NatStringRoundTrip | src/game/ui/HUD.ts:103 | reading back the digits of n gives n |
| Ui.NatStringCanonical | src/game/ui/HUD.ts:103 | the text starts with 0 only for 0 itself: no leading zeros |
| Ui.IntStringRoundTrip | src/game/ui/HUD.ts:103 | reading back the text of any integer, minus sign included, gives it |
| Ui.LevelTextReadsBack | src/game/ui/HUD.ts:103 | the level text is "Level " followed by the level, which reads back from it |
| Ui.ScoreTextReadsBack | src/game/ui/HUD.ts:107 | the score text is "Score: " followed by the score, which reads back from it |
| Ui.LevelTextInjective | src/game/ui/HUD.ts:103 | different levels give different level texts |
| Ui.Fill.constructor | src/game/ui/HUD.ts:29-31 | a fill element starts with the given width and colour class |
| Ui.Hud.constructor | src/game/ui/HUD.ts:29-67 | the display starts with a 100 % green stamina fill, a 35 % blue XP fill, "Level 1" and "Score: 0" |
| Ui.Hud.UpdateStamina | src/game/ui/HUD.ts:77-92 | a present stamina fill gets the percentage as width and the band colour of that percentage; the XP fill is untouched |
| Ui.Hud.UpdateXP | src/game/ui/HUD.ts:94-100 | a present XP fill gets the percentage as width and keeps its colour; the stamina fill is untouched |
| Ui.Hud.UpdateLevel | src/game/ui/HUD.ts:102-104 | the level label becomes the bold span around "Level n"; nothing else changes |
| Ui.Hud.UpdateScore | src/game/ui/HUD.ts:106-108 | the score label becomes the bold span around "Score: n"; nothing else changes |

## Left out

- Mesh construction: the body, head, arm and leg boxes, their materials and `getMesh`. They are rendering only and do not affect the controller state.
- The input manager. A frame's key state is a set of key codes, read once per frame.
- The horizontal velocity components. The source never changes them from 0. Only the kill-plane reset writes them, and it writes 0.
- Entities.Character.Update: takes 1/√2 as the parameter `h` instead of computing a square root. Floating-point rounding of the normalisation and of every other step is not modelled; all arithmetic is exact over the reals.
- Entities.Character.GetPosition: returns the position as a value. The source returns the mesh's live position vector, so a caller could alias it and change it in place.
- The zones' geometry: the sky spheres, the buildings sized and placed with `Math.random`, platforms, lights and edge lines. A zone is modelled only as an object identity.
- Levels.ZoneManager.LoadZone: the scene's children are a set, so their order is not modelled. A name such as "toString" finds an inherited function in a JavaScript object. THREE refuses to add a non-object, so the scene is unchanged, just as for any unknown name.
- Ui.IntString: writes every integer in full. JavaScript writes numbers of magnitude 10^21 and above in exponent form, and non-integer levels or scores with a fraction; neither is modelled.
- Ui.Percentage: does not model signed zero. A value divided by -0 gives the opposite infinity in JavaScript.
- The percentage written into `style.width` as text with a `%` sign. The fill's width is kept as the number the code writes. A browser ignores a width of "Infinity%", "NaN%" or a negative percentage and keeps the old width; the model does not capture that.
- Ui.Hud.UpdateStamina: the stamina and its maximum are exact reals, so NaN or infinite arguments and floating-point rounding of the division are not modelled.
- Ui.Hud.UpdateXP: the XP and its maximum are exact reals, so NaN or infinite arguments and floating-point rounding of the division are not modelled.
- The DOM: the element tree, the container and label class names, the controls hint, and `dispose`.
- The main game loop and the camera. They call these classes but are not part of this model.
