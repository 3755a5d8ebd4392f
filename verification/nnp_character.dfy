/** The slice of ANNP_BitFryTestDemoCharacter (NNP_BitFryTestDemoCharacter.cpp)
    that consumes the input normaliser: the A-button callback that drives the
    jump, the setup that initialises the normaliser and registers that
    callback, the turn and look-up rates that feed the orientation
    accumulator, and the stick selection of the two movement axes.

    The engine calls the character makes (jumping, the engine's own rotation
    input, movement input) are recorded in EngineLog; the frame's delta time
    is an argument. */
module NNPCharacter {
  import opened NNPTypes
  import opened NNPTouch
  import opened NNPPlayerController

  /** CAMERA_MOVE_SCALE: the multiplier on stick-driven turn and look-up. */
  const CAMERA_MOVE_SCALE: real := 2.5

  /** The unit axis of the yaw-only rotation matrix a movement goes along:
      X is forward, Y is right. */
  datatype Axis = XAxis | YAxis

  /** A call from the character into the engine. AddMovementInput records the
      axis, the yaw of the rotation the direction is taken from, and the
      amount. */
  datatype EngineCall =
    | Jump
    | StopJumping
    | AddControllerYawInput(yawValue: real)
    | AddControllerPitchInput(pitchValue: real)
    | AddMovementInput(axis: Axis, yaw: real, amount: real)

  /** What HandleButtons does for a button: the A button jumps when pressed
      and stops jumping when released; every other button does nothing. */
  function ButtonResponse(b: Button, pressed: bool): (calls: seq<EngineCall>)
    ensures calls == [Jump] <==> b == AButton && pressed
    ensures calls == [StopJumping] <==> b == AButton && !pressed
    ensures calls == [] <==> b != AButton
  {
    if b == AButton then (if pressed then [Jump] else [StopJumping]) else []
  }

  /** The objects a call of HandleButtonCallbacks with this owner may change. */
  function OwnerFrame(owner: object?): set<object>
  {
    if owner is Character then {owner as Character} else {}
  }

  /** The callback table after SetupPlayerInputComponent: the A button holds
      &HandleButtonCallbacks when the normaliser is initialised, and every
      other slot stays unset. */
  function SetupActions(initialized: bool): (t: seq<Option<ButtonAction>>)
    ensures |t| == MAX_CONTROLLER_BUTTONS
    ensures forall b :: t[ButtonIndex(b)].Some? <==> initialized && b == AButton
  {
    var empty := seq(MAX_CONTROLLER_BUTTONS, _ => None);
    if initialized then empty[ButtonIndex(AButton) := Some(HandleButtonCallbacksFn)] else empty
  }

  /** The button handlers call their slot unconditionally, and setup fills only
      the A button's slot: an event from any other button calls through a null
      function pointer. */
  lemma UnregisteredButtonCallsNull(initialized: bool, b: Button, owner: object?, pressed: bool)
    requires b != AButton
    ensures HandlerCallAsWritten(SetupActions(initialized)[ButtonIndex(b)], b, owner, pressed) == NullCall
    ensures HandlerCall(SetupActions(initialized)[ButtonIndex(b)], b, owner, pressed) == None
  {
  }

  /** The ButtonAction the character registers: a null owner does nothing;
      an owner that is a character receives (button, pressed) in HandleButtons. */
  method HandleButtonCallbacks(button: Button, owner: object?, pressed: bool)
    modifies OwnerFrame(owner)
    ensures owner is Character ==>
              && (owner as Character).EngineLog == old((owner as Character).EngineLog) + ButtonResponse(button, pressed)
              && (owner as Character).ControlRotation == old((owner as Character).ControlRotation)
  {
    if owner == null {
      return;
    }
    if owner is Character {
      var character := owner as Character;
      character.HandleButtons(button, pressed);
    }
  }

  /** A button's value-changed handler together with the callback it calls:
      the slot is updated as ButtonEvent says, and when the slot holds
      &HandleButtonCallbacks the call reaches the registered owner. */
  method DeliverButtonEvent(ctrl: PlayerController, b: Button, value: real, pressed: bool)
    requires ctrl.Valid()
    modifies ctrl.Buttons, ctrl`CallbackLog, OwnerFrame(ctrl.CallingObject[ButtonIndex(b)])
    ensures ctrl.Valid()
    ensures ctrl.GetButton(b) == if pressed then value else 0.0
    ensures forall c :: c != b ==> ctrl.GetButton(c) == old(ctrl.GetButton(c))
    ensures ctrl.CallbackLog == old(ctrl.CallbackLog)
              + if ctrl.ButtonActions[ButtonIndex(b)].Some?
                then [Invocation(ctrl.ButtonActions[ButtonIndex(b)].value, b, ctrl.CallingObject[ButtonIndex(b)], pressed)]
                else []
    ensures var owner: object? := ctrl.CallingObject[ButtonIndex(b)];
            owner is Character ==>
              && (owner as Character).ControlRotation == old((owner as Character).ControlRotation)
              && (owner as Character).EngineLog == old((owner as Character).EngineLog)
                   + if ctrl.ButtonActions[ButtonIndex(b)] == Some(HandleButtonCallbacksFn) then ButtonResponse(b, pressed) else []
  {
    var call := ctrl.ButtonEvent(b, value, pressed);
    if call.Some? {
      match call.value.action
      case HandleButtonCallbacksFn =>
        HandleButtonCallbacks(call.value.button, call.value.owner, call.value.pressed);
    }
  }

  /** A character set up with a connected controller, then an A press at
      0.7 and a B press at 0.4, each delivered through its button handler:
      the A press reaches HandleButtonCallbacks with the character as owner
      and makes it jump; B's unset slot invokes nothing; both intensities
      are stored. */
  method PressAThenB(controlRotation: Rotator) returns (ch: Character)
    ensures ch.Valid() && ch.NNPController.IsInitialized()
    ensures ch.NNPController.GetButton(AButton) == 0.7 && ch.NNPController.GetButton(BButton) == 0.4
    ensures ch.EngineLog == [Jump]
    ensures ch.NNPController.CallbackLog == [Invocation(HandleButtonCallbacksFn, AButton, ch, true)]
    ensures ch.ControlRotation == controlRotation
  {
    ch := new Character(controlRotation);
    ch.SetupPlayerInputComponent(true);
    DeliverButtonEvent(ch.NNPController, AButton, 0.7, true);
    DeliverButtonEvent(ch.NNPController, BButton, 0.4, true);
  }

  class Character {
    const BaseTurnRate: real
    const BaseLookUpRate: real
    const NNPController: PlayerController

    /** The engine controller's control rotation. */
    var ControlRotation: Rotator
    var EngineLog: seq<EngineCall>

    ghost predicate Valid()
      reads this, NNPController
    {
      NNPController.Valid() && BaseTurnRate == 45.0 && BaseLookUpRate == 45.0
    }

    /** Turn and look-up rates of 45, and a fresh, uninitialised normaliser. */
    constructor (controlRotation: Rotator)
      ensures Valid() && fresh(NNPController)
      ensures fresh(NNPController.Buttons) && fresh(NNPController.ButtonActions)
      ensures fresh(NNPController.CallingObject) && fresh(NNPController.Touchsticks)
      ensures !NNPController.IsInitialized() && NNPController.CallbackLog == []
      ensures ControlRotation == controlRotation && EngineLog == []
    {
      BaseTurnRate := 45.0;
      BaseLookUpRate := 45.0;
      NNPController := new PlayerController();
      ControlRotation := controlRotation;
      EngineLog := [];
    }

    /** The normaliser part of SetupPlayerInputComponent: initialise the
        normaliser from the control rotation and, if it is initialised,
        register HandleButtonCallbacks for the A button with this character
        as owner. */
    method SetupPlayerInputComponent(connected: bool)
      requires Valid()
      modifies NNPController`InitComplete, NNPController`LThumbstick, NNPController`RThumbstick
      modifies NNPController`ControllerOrientation
      modifies NNPController.Buttons, NNPController.ButtonActions, NNPController.CallingObject, NNPController.Touchsticks
      ensures Valid()
      ensures NNPController.IsInitialized() == (connected || old(NNPController.IsInitialized()))
      ensures NNPController.ButtonActions[..] == SetupActions(NNPController.IsInitialized())
      ensures forall b :: NNPController.CallingObject[ButtonIndex(b)] == if NNPController.IsInitialized() && b == AButton then this else null
      ensures forall b :: NNPController.GetButton(b) == 0.0
      ensures forall i :: 0 <= i < MAX_TOUCH_STICKS ==> NNPController.Touchsticks[i] == InitialTouchstick
      ensures NNPController.GetThumbstick(true) == ZeroVector && NNPController.GetThumbstick(false) == ZeroVector
      ensures NNPController.GetOrientation() == ControlRotation
      ensures NNPController.CallbackLog == old(NNPController.CallbackLog)
    {
      var _ := NNPController.InitializeHardwareController(ControlRotation, connected);
      ghost var empty: seq<Option<ButtonAction>> := seq(MAX_CONTROLLER_BUTTONS, _ => None);
      assert NNPController.ButtonActions[..] == empty;
      if NNPController.IsInitialized() {
        NNPController.SetButtonAction(AButton, this, Some(HandleButtonCallbacksFn));
        assert NNPController.ButtonActions[..] == empty[ButtonIndex(AButton) := Some(HandleButtonCallbacksFn)];
      }
    }

    /** Jump on an A-button press, stop jumping on its release, and nothing
        for any other button. */
    method HandleButtons(b: Button, pressed: bool)
      modifies this`EngineLog
      ensures EngineLog == old(EngineLog) + ButtonResponse(b, pressed)
    {
      match b
      case AButton =>
        if pressed {
          EngineLog := EngineLog + [Jump];
        } else {
          EngineLog := EngineLog + [StopJumping];
        }
      case _ =>
    }

    /** Turn rate. With an initialised normaliser the right stick's X, scaled
        by the turn rate, the frame time and the camera scale, is added to the
        normaliser's yaw (rate is ignored) and the control rotation becomes the
        normaliser's orientation; otherwise the engine's own yaw input gets
        rate times turn rate times frame time. */
    method TurnAtRate(rate: real, deltaSeconds: real)
      requires Valid()
      modifies NNPController`ControllerOrientation, this`ControlRotation, this`EngineLog
      ensures Valid()
      ensures var before := old(NNPController.GetOrientation());
              if NNPController.IsInitialized() then
                && NNPController.GetOrientation()
                   == before.(Yaw := before.Yaw + old(NNPController.GetThumbstick(false)).X * BaseTurnRate * deltaSeconds * CAMERA_MOVE_SCALE)
                && ControlRotation == NNPController.GetOrientation()
                && EngineLog == old(EngineLog)
              else
                && NNPController.GetOrientation() == before
                && ControlRotation == old(ControlRotation)
                && EngineLog == old(EngineLog) + [AddControllerYawInput(rate * BaseTurnRate * deltaSeconds)]
    {
      if NNPController.IsInitialized() {
        var thumbstick := NNPController.GetThumbstick(false);
        NNPController.AddYawInput(thumbstick.X * BaseTurnRate * deltaSeconds * CAMERA_MOVE_SCALE);
        ControlRotation := NNPController.GetOrientation();
      } else {
        EngineLog := EngineLog + [AddControllerYawInput(rate * BaseTurnRate * deltaSeconds)];
      }
    }

    /** Look-up rate. With an initialised normaliser the negated right-stick Y
        goes through AddPitchInput, which negates again, so the pitch grows by
        the stick's Y times the look-up rate, the frame time and the camera
        scale (rate is ignored), and the control rotation becomes the
        normaliser's orientation; otherwise the engine's own pitch input gets
        rate times look-up rate times frame time. */
    method LookUpAtRate(rate: real, deltaSeconds: real)
      requires Valid()
      modifies NNPController`ControllerOrientation, this`ControlRotation, this`EngineLog
      ensures Valid()
      ensures var before := old(NNPController.GetOrientation());
              if NNPController.IsInitialized() then
                && NNPController.GetOrientation()
                   == before.(Pitch := before.Pitch + old(NNPController.GetThumbstick(false)).Y * BaseLookUpRate * deltaSeconds * CAMERA_MOVE_SCALE)
                && ControlRotation == NNPController.GetOrientation()
                && EngineLog == old(EngineLog)
              else
                && NNPController.GetOrientation() == before
                && ControlRotation == old(ControlRotation)
                && EngineLog == old(EngineLog) + [AddControllerPitchInput(rate * BaseLookUpRate * deltaSeconds)]
    {
      if NNPController.IsInitialized() {
        var thumbstick := NNPController.GetThumbstick(false);
        NNPController.AddPitchInput(-thumbstick.Y * BaseLookUpRate * deltaSeconds * CAMERA_MOVE_SCALE);
        ControlRotation := NNPController.GetOrientation();
      } else {
        EngineLog := EngineLog + [AddControllerPitchInput(rate * BaseLookUpRate * deltaSeconds)];
      }
    }

    /** Forward movement. With an initialised normaliser the amount is the left
        (default) stick's Y and the direction comes from the normaliser's yaw,
        whatever value is; otherwise a non-zero value moves along the control
        rotation's yaw and a zero value does nothing. */
    method MoveForward(value: real)
      requires Valid()
      modifies this`EngineLog
      ensures Valid()
      ensures EngineLog == old(EngineLog) +
                if NNPController.IsInitialized() then
                  [AddMovementInput(XAxis, NNPController.GetOrientation().Yaw, NNPController.GetThumbstick().Y)]
                else if value != 0.0 then [AddMovementInput(XAxis, ControlRotation.Yaw, value)]
                else []
    {
      if NNPController.IsInitialized() {
        var rotation := NNPController.GetOrientation();
        var thumbstick := NNPController.GetThumbstick();
        EngineLog := EngineLog + [AddMovementInput(XAxis, rotation.Yaw, thumbstick.Y)];
      } else if value != 0.0 {
        EngineLog := EngineLog + [AddMovementInput(XAxis, ControlRotation.Yaw, value)];
      }
    }

    /** Right movement: as MoveForward, along the Y axis and with the left
        stick's X. */
    method MoveRight(value: real)
      requires Valid()
      modifies this`EngineLog
      ensures Valid()
      ensures EngineLog == old(EngineLog) +
                if NNPController.IsInitialized() then
                  [AddMovementInput(YAxis, NNPController.GetOrientation().Yaw, NNPController.GetThumbstick().X)]
                else if value != 0.0 then [AddMovementInput(YAxis, ControlRotation.Yaw, value)]
                else []
    {
      if NNPController.IsInitialized() {
        var rotation := NNPController.GetOrientation();
        var thumbstick := NNPController.GetThumbstick();
        EngineLog := EngineLog + [AddMovementInput(YAxis, rotation.Yaw, thumbstick.X)];
      } else if value != 0.0 {
        EngineLog := EngineLog + [AddMovementInput(YAxis, ControlRotation.Yaw, value)];
      }
    }
  }
}
