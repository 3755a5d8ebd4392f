# NNP input normaliser — a Dafny model

This project models the gamepad and touch input normaliser of the NNP_BitFryTestDemo
Unreal game module, `ANNPPlayerController`, and the slice of the third-person
character `ANNP_BitFryTestDemoCharacter` that consumes it.

The normaliser is a fixed block of state:

- eight button intensities, each with a callback and an owner slot, indexed by the `NNPButtons` enumeration;
- a left and a right thumbstick;
- two virtual touchsticks;
- a yaw/pitch/roll orientation accumulator.

Hardware events write the button and thumbstick state. A touch drives the virtual touchsticks. Each touchstick latches its centre on the first press, tracks the live position while held, and resets to neutral on release. The character registers a callback for the A button that makes it jump or stop jumping. It also feeds the right stick into the orientation accumulator (turn and look-up) and reads the left stick for movement.

Modules, one per source file plus one pure layer:

- `NNPTypes` (nnp_types.dfy): the enumerations, records and constants of NNPPlayerController.h. A `ButtonAction` function pointer is a datatype naming the function it points to (`HandleButtonCallbacksFn`); a null pointer is `None`.
- `NNPTouch` (nnp_touch.dfy): the touchsticks as values. `Route` picks the stick a touch drives, `Latch` is one stick's state machine, `ApplyTouch` is the routed update of the pair, and `StickOutput` is the normalised reading.
- `NNPPlayerController` (nnp_player_controller.dfy): class `PlayerController`. Its tables are arrays of the header's sizes and its methods update them in place. Every callback invocation is recorded in the ghost `CallbackLog`. The pure reads `GetButton`, `GetThumbstick`, `GetOrientation`, `GetTouchstick` and `IsInitialized` are functions. `GetThumbstick` and `GetTouchstick` keep the header's default argument (the left stick). The event methods' contracts are stated through these functions.
- `NNPCharacter` (nnp_character.dfy): class `Character` and the free function `HandleButtonCallbacks`. The character's calls into the engine (`Jump`, `StopJumping`, the engine's own yaw/pitch input, `AddMovementInput`) are appended to `EngineLog`.

Inputs that come from outside the module are parameters:

- whether a game controller is connected: `connected` of `InitializeHardwareController`;
- each value-changed block the normaliser installs: the methods `ButtonEvent(b, value, pressed)` and `StickEvent(left, x, y)`;
- the engine's touch state and viewport size: `(x, y, pressed, viewportW, viewportH)` of `SetTouchstick`, plus `available` for the null controller/engine/viewport guard;
- the frame's delta time: `deltaSeconds`.

Floats are `real`. Orientation accumulates without clamping or wrapping.

Touch routing follows NNPPlayerController.cpp:224. A touch with `y > H/2` is discarded, and only touches with `y <= H/2` reach a stick. `LowerHalfTouchDiscarded` shows that a touch in the lower half changes nothing. `UpperLeftStroke` and `UpperLeftReadings` follow a full stroke in the upper-left quarter.

## Model

| member | source | states |
|---|---|---|
| NNPTypes.ButtonIndex | NNP_BitFryTestDemo/Source/NNP_BitFryTestDemo/NNPPlayerController.h:13-25 | every button's enumerator value is below MAX_CONTROLLER_BUTTONS = 8, with AButton = 0 and RTrigger = 7 |
| NNPTypes.ButtonAt | NNP_BitFryTestDemo/Source/NNP_BitFryTestDemo/NNPPlayerController.h:13-25 | exactly the values 0..7 name a button, and ButtonAt inverts ButtonIndex on them |
| NNPTypes.ButtonIndexBijective | NNP_BitFryTestDemo/Source/NNP_BitFryTestDemo/NNPPlayerController.h:13-25 | distinct buttons have distinct indices; index then lookup returns the button |
| NNPTypes.TouchstickIndex | NNP_BitFryTestDemo/Source/NNP_BitFryTestDemo/NNPPlayerController.h:37-43 | LTouchstick = 0, RTouchstick = 1, both below MAX_TOUCH_STICKS = 2 |
| NNPTypes.TouchstickAt | NNP_BitFryTestDemo/Source/NNP_BitFryTestDemo/NNPPlayerController.h:37-43 | exactly 0 and 1 name a touchstick, and TouchstickAt inverts TouchstickIndex |
| NNPTypes.StickOf | NNP_BitFryTestDemo/Source/NNP_BitFryTestDemo/NNPPlayerController.cpp:261-264 | a true leftStick selects LTouchstick and a false one RTouchstick |
| NNPTouch.Neutral | NNP_BitFryTestDemo/Source/NNP_BitFryTestDemo/NNPPlayerController.cpp:249-251 | a neutral stick has the latch armed, zero centre and position, and the given radius |
| NNPTouch.Route | NNP_BitFryTestDemo/Source/NNP_BitFryTestDemo/NNPPlayerController.cpp:224-235 | no stick iff y > H/2; left iff y <= H/2 and x < W/2; right iff y <= H/2 and x >= W/2 |
| NNPTouch.Latch | NNP_BitFryTestDemo/Source/NNP_BitFryTestDemo/NNPPlayerController.cpp:237-252 | a press disarms the latch, sets the position, and sets the centre only if the latch was armed; a release gives the neutral stick; the radius never changes |
| NNPTouch.HoldLatchesCenterOnce | NNP_BitFryTestDemo/Source/NNP_BitFryTestDemo/NNPPlayerController.cpp:237-246 | over any held path the centre is the first point (or the earlier centre if the latch was disarmed), the position is the last point, and the latch ends disarmed |
| NNPTouch.ReleaseRearmsLatch | NNP_BitFryTestDemo/Source/NNP_BitFryTestDemo/NNPPlayerController.cpp:237-252 | a release after any held path gives the neutral stick, and the next stroke's centre is that stroke's own first point |
| NNPTouch.HoldRadius | NNP_BitFryTestDemo/Source/NNP_BitFryTestDemo/NNPPlayerController.cpp:237-246 | holding along any path keeps the radius |
| NNPTouch.TouchPathHoldsRoutedStick | NNP_BitFryTestDemo/Source/NNP_BitFryTestDemo/NNPPlayerController.cpp:224-246 | successive held touches all routed to one stick drive it exactly as Hold does and leave the other stick alone, so its centre is the stroke's first point (if armed) and its position the last |
| NNPTouch.ApplyTouch | NNP_BitFryTestDemo/Source/NNP_BitFryTestDemo/NNPPlayerController.cpp:224-252 | a discarded touch changes nothing; otherwise the routed stick takes one Latch step and the other stick is unchanged |
| NNPTouch.ReleaseRoutedAwayKeepsLeftStick | NNP_BitFryTestDemo/Source/NNP_BitFryTestDemo/NNPPlayerController.cpp:224-235 | a release routed below the middle line or to the right half leaves the left stick as it was, even while held |
| NNPTouch.Magnitude | NNP_BitFryTestDemo/Source/NNP_BitFryTestDemo/NNPPlayerController.cpp:267-271 | the factor is in [0, 1]; it is 1 once distance >= radius, else distance/radius; it is 0 iff the distance is 0 (with a positive radius) |
| NNPTouch.SafeNormal | NNP_BitFryTestDemo/Source/NNP_BitFryTestDemo/NNPPlayerController.cpp:272 | a zero direction gives the zero vector; otherwise the result times the length is the direction |
| NNPTouch.StickOutput | NNP_BitFryTestDemo/Source/NNP_BitFryTestDemo/NNPPlayerController.cpp:266-273 | touch on the centre reads zero; inside the radius the reading is displacement/radius; from the radius outwards it is displacement/length |
| NNPTouch.StickOutputLength | NNP_BitFryTestDemo/Source/NNP_BitFryTestDemo/NNPPlayerController.cpp:266-273 | with distance the Euclidean length and a positive radius, the reading's squared length is Magnitude squared: every reading lies in the unit disc, and from the radius outwards it has length exactly 1 |
| NNPTouch.NeutralReadsZero | NNP_BitFryTestDemo/Source/NNP_BitFryTestDemo/NNPPlayerController.cpp:249-251 | a neutral stick has zero displacement and reads the zero vector |
| NNPTouch.LowerHalfTouchDiscarded | NNP_BitFryTestDemo/Source/NNP_BitFryTestDemo/NNPPlayerController.cpp:224-225 | a touch at (200, 700) in a 1000 x 800 viewport leaves both sticks in their initial state |
| NNPTouch.UpperLeftStroke | NNP_BitFryTestDemo/Source/NNP_BitFryTestDemo/NNPPlayerController.cpp:224-252 | press at (200, 300), move to (240, 300), release: the left stick latches (200, 300), follows the touch, then resets; the right stick stays initial |
| NNPTouch.UpperLeftReadings | NNP_BitFryTestDemo/Source/NNP_BitFryTestDemo/NNPPlayerController.cpp:266-273 | in that stroke the held stick reads (0.4, 0) and the released stick reads zero |
| NNPPlayerController.HandlerCallAsWritten | NNP_BitFryTestDemo/Source/NNP_BitFryTestDemo/NNPPlayerController.cpp:69-76 | the handler calls through the slot unconditionally: an unset slot is a null call, a set one invokes it with (button, owner, pressed) |
| NNPPlayerController.HandlerCall | NNP_BitFryTestDemo/Source/NNP_BitFryTestDemo/NNPPlayerController.cpp:69-76 | guarded call: no invocation iff the slot is unset, and otherwise the same invocation as the code as written |
| NNPPlayerController.PlayerController.constructor | NNP_BitFryTestDemo/Source/NNP_BitFryTestDemo/NNPPlayerController.cpp:11-14 | the normaliser starts uninitialised, with tables of the header's sizes and an empty callback log |
| NNPPlayerController.PlayerController.IsInitialized | NNP_BitFryTestDemo/Source/NNP_BitFryTestDemo/NNPPlayerController.cpp:51-54 | true exactly when InitComplete is set, which only a connected initialisation does |
| NNPPlayerController.PlayerController.GetOrientation | NNP_BitFryTestDemo/Source/NNP_BitFryTestDemo/NNPPlayerController.cpp:172-175 | the accumulated orientation that initialisation seeds and the Add*Input methods change |
| NNPPlayerController.PlayerController.GetThumbstick | NNP_BitFryTestDemo/Source/NNP_BitFryTestDemo/NNPPlayerController.cpp:195-201 | the left thumbstick when leftStick holds (the default), the right one otherwise |
| NNPPlayerController.PlayerController.GetTouchstick | NNP_BitFryTestDemo/Source/NNP_BitFryTestDemo/NNPPlayerController.cpp:255-279 | the reading of the selected stick (the left by default): zero with the touch on the centre, displacement/radius inside the radius, displacement/length from the radius outwards |
| NNPPlayerController.PlayerController.TouchstickReadingInUnitDisc | NNP_BitFryTestDemo/Source/NNP_BitFryTestDemo/NNPPlayerController.cpp:255-279 | with the Euclidean length and a positive radius, a GetTouchstick reading lies in the unit disc and has length 1 from the radius outwards |
| NNPPlayerController.PlayerController.GetButton | NNP_BitFryTestDemo/Source/NNP_BitFryTestDemo/NNPPlayerController.cpp:289-292 | the intensity stored in the button's slot, which ButtonEvent writes |
| NNPPlayerController.PlayerController.InitializeHardwareController | NNP_BitFryTestDemo/Source/NNP_BitFryTestDemo/NNPPlayerController.cpp:18-49 | connected or not: every button 0 with no callback or owner, both touchsticks neutral with radius 100, both thumbsticks zero, orientation = argument; returns connected; InitComplete becomes true iff connected, else keeps its value |
| NNPPlayerController.PlayerController.ButtonEvent | NNP_BitFryTestDemo/Source/NNP_BitFryTestDemo/NNPPlayerController.cpp:69-146 | the button's slot becomes value if pressed else 0; every other slot is unchanged; the registered callback is invoked once with (button, owner, pressed), and nothing is invoked if none is registered |
| NNPPlayerController.PlayerController.StickEvent | NNP_BitFryTestDemo/Source/NNP_BitFryTestDemo/NNPPlayerController.cpp:149-159 | the reported stick becomes (x, y); the other stick is unchanged |
| NNPPlayerController.PlayerController.AddYawInput | NNP_BitFryTestDemo/Source/NNP_BitFryTestDemo/NNPPlayerController.cpp:178-181 | yaw grows by value, with no wrap; pitch and roll are unchanged |
| NNPPlayerController.PlayerController.AddPitchInput | NNP_BitFryTestDemo/Source/NNP_BitFryTestDemo/NNPPlayerController.cpp:183-186 | pitch shrinks by value; yaw and roll are unchanged |
| NNPPlayerController.PlayerController.AddRollInput | NNP_BitFryTestDemo/Source/NNP_BitFryTestDemo/NNPPlayerController.cpp:188-192 | roll grows by value; yaw and pitch are unchanged |
| NNPPlayerController.PlayerController.SetTouchstick | NNP_BitFryTestDemo/Source/NNP_BitFryTestDemo/NNPPlayerController.cpp:203-253 | without a controller or viewport nothing changes; otherwise the touchsticks become ApplyTouch of the old ones |
| NNPPlayerController.PlayerController.SetButtonAction | NNP_BitFryTestDemo/Source/NNP_BitFryTestDemo/NNPPlayerController.cpp:282-286 | only the button's callback and owner are overwritten; every other registration is unchanged |
| NNPPlayerController.PlayerController.ResetReadsNeutral | NNP_BitFryTestDemo/Source/NNP_BitFryTestDemo/NNPPlayerController.cpp:22-39 | after initialisation every GetButton is 0; GetThumbstick and GetTouchstick read zero for both sticks (the left by default); GetOrientation is the seed |
| NNPCharacter.ButtonResponse | NNP_BitFryTestDemo/Source/NNP_BitFryTestDemo/NNP_BitFryTestDemoCharacter.cpp:109-123 | Jump iff A is pressed, StopJumping iff A is released, nothing iff the button is not A |
| NNPCharacter.HandleButtonCallbacks | NNP_BitFryTestDemo/Source/NNP_BitFryTestDemo/NNP_BitFryTestDemoCharacter.cpp:14-23 | a null owner changes nothing; a character owner gets (button, pressed) through HandleButtons and nothing else of it changes |
| NNPCharacter.DeliverButtonEvent | NNP_BitFryTestDemo/Source/NNP_BitFryTestDemo/NNPPlayerController.cpp:69-76 | a hardware button event updates the slot as ButtonEvent does; a character owner's engine log grows by ButtonResponse when the slot holds HandleButtonCallbacks and is unchanged when the slot is unset; its control rotation never changes |
| NNPCharacter.SetupActions | NNP_BitFryTestDemo/Source/NNP_BitFryTestDemo/NNP_BitFryTestDemoCharacter.cpp:77-79 | after setup, the only set callback slot is A's, and only when the normaliser is initialised |
| NNPCharacter.UnregisteredButtonCallsNull | NNP_BitFryTestDemo/Source/NNP_BitFryTestDemo/NNPPlayerController.cpp:81-146 | after setup, an event from any button other than A is a null call as written, and no invocation once guarded |
| NNPCharacter.PressAThenB | NNP_BitFryTestDemo/Source/NNP_BitFryTestDemo/NNPPlayerController.cpp:69-89 | after setup with a connected controller, an A press at 0.7 makes the owner character jump through HandleButtonCallbacks, a B press at 0.4 invokes nothing (the guarded call), and both intensities are stored |
| NNPCharacter.Character.constructor | NNP_BitFryTestDemo/Source/NNP_BitFryTestDemo/NNP_BitFryTestDemoCharacter.cpp:28-64 | turn and look-up rates are 45, and the character owns a fresh, uninitialised normaliser whose four tables are fresh too |
| NNPCharacter.Character.SetupPlayerInputComponent | NNP_BitFryTestDemo/Source/NNP_BitFryTestDemo/NNP_BitFryTestDemoCharacter.cpp:69-83 | the normaliser is reset and seeded with the control rotation; if it is initialised, A's slot holds HandleButtonCallbacks with this character as owner; all other slots are unset |
| NNPCharacter.Character.HandleButtons | NNP_BitFryTestDemo/Source/NNP_BitFryTestDemo/NNP_BitFryTestDemoCharacter.cpp:109-123 | the engine log grows by exactly ButtonResponse(button, pressed) |
| NNPCharacter.Character.TurnAtRate | NNP_BitFryTestDemo/Source/NNP_BitFryTestDemo/NNP_BitFryTestDemoCharacter.cpp:151-164 | initialised: yaw += rightStick.X * 45 * dt * 2.5, rate ignored, control rotation = normaliser orientation; otherwise the orientation is untouched and the engine gets yaw input rate * 45 * dt |
| NNPCharacter.Character.LookUpAtRate | NNP_BitFryTestDemo/Source/NNP_BitFryTestDemo/NNP_BitFryTestDemoCharacter.cpp:166-179 | initialised: pitch += rightStick.Y * 45 * dt * 2.5 (the double negation), rate ignored, control rotation = normaliser orientation; otherwise the engine gets pitch input rate * 45 * dt |
| NNPCharacter.Character.MoveForward | NNP_BitFryTestDemo/Source/NNP_BitFryTestDemo/NNP_BitFryTestDemoCharacter.cpp:181-210 | initialised: movement along X by the left stick's Y at the normaliser's yaw, whatever value is; otherwise a non-zero value moves along X at the control yaw, and zero does nothing |
| NNPCharacter.Character.MoveRight | NNP_BitFryTestDemo/Source/NNP_BitFryTestDemo/NNP_BitFryTestDemoCharacter.cpp:212-242 | initialised: movement along Y by the left stick's X at the normaliser's yaw; otherwise as MoveForward along Y |

## Findings

| source | as written | input that shows it | evidently intended | confidence | as-written member | corrected member |
|---|---|---|---|---|---|---|
| NNP_BitFryTestDemo/Source/NNP_BitFryTestDemo/NNPPlayerController.cpp:76 | the A handler (and likewise the other seven handlers, lines 88-145) calls `ButtonActions[b](...)` without checking it; initialisation nulls every slot and the character registers only AButton | connected controller, setup done, then press or release B (or X, Y, a shoulder or a trigger): the handler calls a null function pointer | an unset slot invokes nothing, as the callback table's optional registration implies | medium, not executed | NNPPlayerController.HandlerCallAsWritten, NNPCharacter.UnregisteredButtonCallsNull | NNPPlayerController.HandlerCall (used by NNPPlayerController.PlayerController.ButtonEvent) |

## Left out

- Game-controller discovery and handler installation (`[GCController controllers]`, `ToggleHardwareController` and its `extendedGamepad` check). The connection is the `connected` argument. The installed blocks are the event methods, callable whenever the caller delivers an event. A connected controller without an extended gamepad, which installs no handlers, is not distinguished.
- The CoreHaptics subsystem (`InitializeHaptics`, and `UpdateHaptics`, which is declared but never defined). Nothing calls it.
- On-screen debug messages.
- Floating point: floats are reals, so there is no IEEE rounding.
- NNPTouch.StickOutput: the length of a stick's displacement (`FVector2D::Size`) is an argument. It is only required to be non-negative and zero exactly for a zero displacement; no square root is computed. That it is the Euclidean length (`IsEuclidean`) is assumed only by `StickOutputLength` and `TouchstickReadingInUnitDisc`, which state the unit length.
- NNPTouch.SafeNormal: returns zero only for an exactly zero displacement. The engine's `GetSafeNormal(0.001)` tolerance for near-zero displacements is not modelled.
- The state of the tables before the first `InitializeHardwareController` is whatever the arrays hold. The C++ leaves it indeterminate.
- A non-null owner that is not a character: the C++ casts it unchecked. `HandleButtonCallbacks` treats it as a no-op.
- Engine math and physics: the `FRotationMatrix` direction vectors, and what `AddMovementInput`, `AddControllerYawInput`, `AddControllerPitchInput`, `Jump` and `StopJumping` do. These calls are recorded, not executed.
- The null checks on the engine `Controller` in MoveForward/MoveRight. Setup dereferences it unconditionally, so it is taken to be present.
- The null guards on `NNPController` in the character (NNP_BitFryTestDemoCharacter.cpp:74, 156, 171, 183, 214). `NNPController` is a non-null reference created by the constructor; setup dereferences it unchecked (line 77), so a missing normaliser is not modelled.
- The character's component setup, the engine input bindings (including the fallback binding of Jump to the engine's own action), `DoNothing`, `OnResetVR`, and the touch-to-jump handlers `TouchStarted`/`TouchStopped`.
- The game mode and the build descriptors.
- Concurrency between hardware callbacks and per-frame reads. Events are sequential method calls.
