/** ANNPPlayerController (NNPPlayerController.cpp): the input normaliser. A
    fixed block of state — per-button intensities and callback table, two
    thumbsticks, two virtual touchsticks and an orientation accumulator —
    updated by hardware events and read by gameplay code.

    The platform's controller enumeration becomes the `connected` argument of
    InitializeHardwareController, each installed value-changed block becomes a
    method (ButtonEvent, StickEvent), and the engine's touch and viewport
    queries become arguments of SetTouchstick. */
module NNPPlayerController {
  import opened NNPTypes
  import opened NNPTouch

  /** What a button handler's callback line does as written: it calls through
      the table slot whether or not it is set, so an unset slot is a call
      through a null function pointer. */
  datatype CallOutcome = NullCall | Called(invocation: Invocation)

  /** The callback line of a button handler as written. */
  function HandlerCallAsWritten(action: Option<ButtonAction>, b: Button, owner: object?, pressed: bool): (c: CallOutcome)
    ensures c == NullCall <==> action == None
    ensures action.Some? ==> c.invocation.action == action.value
    ensures c.Called? ==> c.invocation.button == b && c.invocation.owner == owner && c.invocation.pressed == pressed
  {
    match action
    case None => NullCall
    case Some(f) => Called(Invocation(f, b, owner, pressed))
  }

  /** The callback line guarded against an unset slot: the registered callback
      is invoked once with (button, owner, pressed), and an unset slot invokes
      nothing. Wherever the code as written is defined, the two agree. */
  function HandlerCall(action: Option<ButtonAction>, b: Button, owner: object?, pressed: bool): (c: Option<Invocation>)
    ensures c.None? <==> action.None?
    ensures c.Some? ==> HandlerCallAsWritten(action, b, owner, pressed) == Called(c.value)
  {
    match action
    case None => None
    case Some(f) => Some(Invocation(f, b, owner, pressed))
  }

  class PlayerController {
    var InitComplete: bool

    const Buttons: array<real>
    const ButtonActions: array<Option<ButtonAction>>
    const CallingObject: array<object?>

    const Touchsticks: array<Touchstick>
    var RThumbstick: Vector2D
    var LThumbstick: Vector2D
    var ControllerOrientation: Rotator

    /** Every callback invocation so far, in order. */
    ghost var CallbackLog: seq<Invocation>

    /** The tables have the sizes the header gives them, so every button and
        every touchstick indexes them in bounds. */
    ghost predicate Valid()
      reads this
    {
      && Buttons.Length == MAX_CONTROLLER_BUTTONS
      && ButtonActions.Length == MAX_CONTROLLER_BUTTONS
      && CallingObject.Length == MAX_CONTROLLER_BUTTONS
      && Touchsticks.Length == MAX_TOUCH_STICKS
    }

    /** The state InitializeHardwareController leaves, whatever it returns. */
    ghost predicate IsReset(orientation: Rotator)
      requires Valid()
      reads this, Buttons, ButtonActions, CallingObject, Touchsticks
    {
      && (forall i :: 0 <= i < MAX_CONTROLLER_BUTTONS ==> Buttons[i] == 0.0)
      && (forall i :: 0 <= i < MAX_CONTROLLER_BUTTONS ==> ButtonActions[i] == None)
      && (forall i :: 0 <= i < MAX_CONTROLLER_BUTTONS ==> CallingObject[i] == null)
      && (forall i :: 0 <= i < MAX_TOUCH_STICKS ==> Touchsticks[i] == InitialTouchstick)
      && LThumbstick == ZeroVector && RThumbstick == ZeroVector
      && ControllerOrientation == orientation
    }

    /** Not initialised; the tables exist but hold no promised values yet. */
    constructor ()
      ensures Valid() && !InitComplete && CallbackLog == []
      ensures fresh(Buttons) && fresh(ButtonActions) && fresh(CallingObject) && fresh(Touchsticks)
    {
      InitComplete := false;
      Buttons := new real[MAX_CONTROLLER_BUTTONS];
      ButtonActions := new Option<ButtonAction>[MAX_CONTROLLER_BUTTONS];
      CallingObject := new object?[MAX_CONTROLLER_BUTTONS];
      Touchsticks := new Touchstick[MAX_TOUCH_STICKS];
      CallbackLog := [];
    }

    /** Resets every button, callback, owner, touchstick and thumbstick, seeds
        the orientation, and reports whether a hardware controller is
        connected. Only a connected controller sets InitComplete; without one
        the flag keeps the value it had. */
    method InitializeHardwareController(orientation: Rotator, connected: bool) returns (ok: bool)
      requires Valid()
      modifies this`InitComplete, this`LThumbstick, this`RThumbstick, this`ControllerOrientation
      modifies Buttons, ButtonActions, CallingObject, Touchsticks
      ensures Valid() && IsReset(orientation)
      ensures ok == connected
      ensures InitComplete == (connected || old(InitComplete))
      ensures CallbackLog == old(CallbackLog)
    {
      for i := 0 to MAX_CONTROLLER_BUTTONS
        invariant forall j :: 0 <= j < i ==> Buttons[j] == 0.0
        invariant forall j :: 0 <= j < i ==> ButtonActions[j] == None
        invariant forall j :: 0 <= j < i ==> CallingObject[j] == null
        invariant InitComplete == old(InitComplete)
      {
        Buttons[i] := 0.0;
        ButtonActions[i] := None;
        CallingObject[i] := null;
      }

      for i := 0 to MAX_TOUCH_STICKS
        invariant forall j :: 0 <= j < i ==> Touchsticks[j] == InitialTouchstick
        invariant forall j :: 0 <= j < MAX_CONTROLLER_BUTTONS ==> Buttons[j] == 0.0
        invariant forall j :: 0 <= j < MAX_CONTROLLER_BUTTONS ==> ButtonActions[j] == None
        invariant forall j :: 0 <= j < MAX_CONTROLLER_BUTTONS ==> CallingObject[j] == null
        invariant InitComplete == old(InitComplete)
      {
        Touchsticks[i] := Touchsticks[i].(FirstTouch := true, Radius := TOUCH_STICK_RADIUS);
        Touchsticks[i] := Touchsticks[i].(Center := ZeroVector, StickPos := ZeroVector);
      }

      LThumbstick := ZeroVector;
      RThumbstick := ZeroVector;
      ControllerOrientation := orientation;

      if connected {
        InitComplete := true;
        return true;
      }
      return false;
    }

    /** Whether a connected controller has completed initialisation. */
    predicate IsInitialized(): (r: bool)
      reads this
      ensures r <==> InitComplete
    {
      InitComplete
    }

    /** The value-changed handler installed for button b: the button's slot
        takes the reported value while pressed and 0 on release, and the
        button's registered callback is invoked once with (b, owner, pressed).
        The returned invocation is the call the handler makes, for the caller
        to deliver. */
    method ButtonEvent(b: Button, value: real, pressed: bool) returns (call: Option<Invocation>)
      requires Valid()
      modifies Buttons, this`CallbackLog
      ensures Valid()
      ensures GetButton(b) == if pressed then value else 0.0
      ensures forall c :: c != b ==> GetButton(c) == old(GetButton(c))
      ensures call == HandlerCall(ButtonActions[ButtonIndex(b)], b, CallingObject[ButtonIndex(b)], pressed)
      ensures CallbackLog == old(CallbackLog) + if call.Some? then [call.value] else []
    {
      var i := ButtonIndex(b);
      if pressed {
        Buttons[i] := value;
      } else {
        Buttons[i] := 0.0;
      }
      call := HandlerCall(ButtonActions[i], b, CallingObject[i], pressed);
      if call.Some? {
        CallbackLog := CallbackLog + [call.value];
      }
    }

    /** The value-changed handler installed for a thumbstick: that stick takes
        (x, y) and the other keeps its value. */
    method StickEvent(leftStick: bool, x: real, y: real)
      requires Valid()
      modifies this`LThumbstick, this`RThumbstick
      ensures Valid()
      ensures GetThumbstick(leftStick) == Vector2D(x, y)
      ensures GetThumbstick(!leftStick) == old(GetThumbstick(!leftStick))
    {
      if leftStick {
        LThumbstick := Vector2D(x, y);
      } else {
        RThumbstick := Vector2D(x, y);
      }
    }

    /** The accumulated orientation. */
    function GetOrientation(): (r: Rotator)
      reads this
      ensures r == ControllerOrientation
    {
      ControllerOrientation
    }

    /** Adds value to the yaw, with no clamping or wrapping. */
    method AddYawInput(value: real)
      requires Valid()
      modifies this`ControllerOrientation
      ensures Valid()
      ensures GetOrientation().Yaw == old(GetOrientation().Yaw) + value
      ensures GetOrientation().Pitch == old(GetOrientation().Pitch)
      ensures GetOrientation().Roll == old(GetOrientation().Roll)
    {
      ControllerOrientation := ControllerOrientation.(Yaw := ControllerOrientation.Yaw + value);
    }

    /** Subtracts value from the pitch (the inverted-look convention), with no
        clamping or wrapping. */
    method AddPitchInput(value: real)
      requires Valid()
      modifies this`ControllerOrientation
      ensures Valid()
      ensures GetOrientation().Pitch == old(GetOrientation().Pitch) - value
      ensures GetOrientation().Yaw == old(GetOrientation().Yaw)
      ensures GetOrientation().Roll == old(GetOrientation().Roll)
    {
      ControllerOrientation := ControllerOrientation.(Pitch := ControllerOrientation.Pitch + value * -1.0);
    }

    /** Adds value to the roll, with no clamping or wrapping. */
    method AddRollInput(value: real)
      requires Valid()
      modifies this`ControllerOrientation
      ensures Valid()
      ensures GetOrientation().Roll == old(GetOrientation().Roll) + value
      ensures GetOrientation().Yaw == old(GetOrientation().Yaw)
      ensures GetOrientation().Pitch == old(GetOrientation().Pitch)
    {
      ControllerOrientation := ControllerOrientation.(Roll := ControllerOrientation.Roll + value);
    }

    /** The last (x, y) reported for a thumbstick; the left one by default. */
    function GetThumbstick(leftStick: bool := true): (r: Vector2D)
      reads this
      ensures leftStick ==> r == LThumbstick
      ensures !leftStick ==> r == RThumbstick
    {
      if leftStick then LThumbstick else RThumbstick
    }

    /** Feeds the current touch to the virtual touchsticks. available is false
        when there is no player controller, engine or game viewport to ask, and
        then nothing changes; otherwise the touch (x, y, pressed) in a viewport
        of viewportW x viewportH is routed and latched as ApplyTouch says. */
    method SetTouchstick(available: bool, x: real, y: real, pressed: bool, viewportW: real, viewportH: real)
      requires Valid()
      modifies Touchsticks
      ensures Valid()
      ensures Touchsticks[..] == if available then ApplyTouch(old(Touchsticks[..]), x, y, pressed, viewportW, viewportH)
                                 else old(Touchsticks[..])
    {
      if !available {
        return;
      }
      if y > viewportH * 0.5 {
        return;
      }
      var leftStick := x < viewportW * 0.5;
      var index := if leftStick then TouchstickIndex(LTouchstick) else TouchstickIndex(RTouchstick);
      if pressed {
        if Touchsticks[index].FirstTouch {
          Touchsticks[index] := Touchsticks[index].(FirstTouch := false, Center := Vector2D(x, y));
        }
        Touchsticks[index] := Touchsticks[index].(StickPos := Vector2D(x, y));
      } else {
        Touchsticks[index] := Touchsticks[index].(FirstTouch := true, Center := ZeroVector, StickPos := ZeroVector);
      }
    }

    /** The normalised reading of a touchstick (the left one by default);
        distance is the length of the stick's displacement from its centre.
        With the touch on the centre it reads zero, inside the radius the
        displacement over the radius, from the radius outwards the
        displacement over its own length. */
    function GetTouchstick(distance: real, leftStick: bool := true): (r: Vector2D)
      requires Valid()
      requires IsLength(Direction(Touchsticks[TouchstickIndex(StickOf(leftStick))]), distance)
      reads this, Touchsticks
      ensures var s := Touchsticks[TouchstickIndex(StickOf(leftStick))];
              && (s.StickPos == s.Center ==> r == ZeroVector)
              && (0.0 < distance < s.Radius ==> r == Scale(Direction(s), 1.0 / s.Radius))
              && (0.0 < distance && s.Radius <= distance ==> r == Scale(Direction(s), 1.0 / distance))
    {
      StickOutput(Touchsticks[TouchstickIndex(StickOf(leftStick))], distance)
    }

    /** Registers callback and owner for button b and leaves every other
        button's registration as it was. */
    method SetButtonAction(b: Button, owner: object?, callback: Option<ButtonAction>)
      requires Valid()
      modifies ButtonActions, CallingObject
      ensures Valid()
      ensures ButtonActions[ButtonIndex(b)] == callback && CallingObject[ButtonIndex(b)] == owner
      ensures forall i :: 0 <= i < MAX_CONTROLLER_BUTTONS && i != ButtonIndex(b) ==>
                ButtonActions[i] == old(ButtonActions[i]) && CallingObject[i] == old(CallingObject[i])
    {
      ButtonActions[ButtonIndex(b)] := callback;
      CallingObject[ButtonIndex(b)] := owner;
    }

    /** The stored intensity of button b. */
    function GetButton(b: Button): (v: real)
      requires Valid()
      reads this, Buttons
      ensures v == Buttons[ButtonIndex(b)]
    {
      Buttons[ButtonIndex(b)]
    }

    /** With distance the Euclidean length of the displacement and a positive
        radius, a touchstick reading lies in the unit disc, and from the radius
        outwards it has length exactly 1. */
    lemma TouchstickReadingInUnitDisc(distance: real, leftStick: bool)
      requires Valid()
      requires IsLength(Direction(Touchsticks[TouchstickIndex(StickOf(leftStick))]), distance)
      requires IsEuclidean(Direction(Touchsticks[TouchstickIndex(StickOf(leftStick))]), distance)
      requires Touchsticks[TouchstickIndex(StickOf(leftStick))].Radius > 0.0
      ensures SqSize(GetTouchstick(distance, leftStick)) <= 1.0
      ensures distance >= Touchsticks[TouchstickIndex(StickOf(leftStick))].Radius ==> SqSize(GetTouchstick(distance, leftStick)) == 1.0
    {
      StickOutputLength(Touchsticks[TouchstickIndex(StickOf(leftStick))], distance);
    }

    /** Right after initialisation every query reads neutral: each button 0,
        both thumbsticks and both touchsticks zero (the left ones being the
        defaults), and the orientation the one given. */
    lemma ResetReadsNeutral(orientation: Rotator)
      requires Valid() && IsReset(orientation)
      ensures forall b :: GetButton(b) == 0.0
      ensures GetThumbstick() == ZeroVector && GetThumbstick(false) == ZeroVector
      ensures IsLength(Direction(InitialTouchstick), 0.0)
      ensures GetTouchstick(0.0) == ZeroVector && GetTouchstick(0.0, false) == ZeroVector
      ensures GetOrientation() == orientation
    {
      assert Touchsticks[0] == InitialTouchstick && Touchsticks[1] == InitialTouchstick;
    }
  }
}
