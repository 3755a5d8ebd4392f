/** The identifiers, records and constants that NNPPlayerController.h declares:
    the button and touchstick enumerations, the Touchstick record, the engine's
    2-D vector and rotator, and the button-callback table's entry type. */
module NNPTypes {

  datatype Option<+T> = None | Some(value: T)

  /** NNPButtons: the eight buttons of an extended gamepad, in enumerator order. */
  datatype Button = AButton | BButton | XButton | YButton | LShoulder | RShoulder | LTrigger | RTrigger

  /** MAX_CONTROLLER_BUTTONS, the enumerator that follows RTrigger; it sizes
      Buttons, ButtonActions and CallingObject. */
  const MAX_CONTROLLER_BUTTONS: nat := 8

  /** The enumerator value of a button, which is also its index into the button tables. */
  function ButtonIndex(b: Button): (i: nat)
    ensures i < MAX_CONTROLLER_BUTTONS
    ensures b == AButton <==> i == 0
    ensures b == RTrigger <==> i == MAX_CONTROLLER_BUTTONS - 1
  {
    match b
    case AButton => 0
    case BButton => 1
    case XButton => 2
    case YButton => 3
    case LShoulder => 4
    case RShoulder => 5
    case LTrigger => 6
    case RTrigger => 7
  }

  /** The button whose enumerator value is i, if there is one. */
  function ButtonAt(i: int): (r: Option<Button>)
    ensures r.Some? <==> 0 <= i < MAX_CONTROLLER_BUTTONS
    ensures r.Some? ==> ButtonIndex(r.value) == i
  {
    if i == 0 then Some(AButton)
    else if i == 1 then Some(BButton)
    else if i == 2 then Some(XButton)
    else if i == 3 then Some(YButton)
    else if i == 4 then Some(LShoulder)
    else if i == 5 then Some(RShoulder)
    else if i == 6 then Some(LTrigger)
    else if i == 7 then Some(RTrigger)
    else None
  }

  /** The enumeration is a bijection between the buttons and 0 .. MAX_CONTROLLER_BUTTONS - 1:
      distinct buttons have distinct indices, so no two buttons share a table slot. */
  lemma ButtonIndexBijective(b: Button, c: Button)
    ensures ButtonAt(ButtonIndex(b)) == Some(b)
    ensures ButtonIndex(b) == ButtonIndex(c) ==> b == c
  {
  }

  /** NNPTouchsticks: one virtual stick per half of the screen. */
  datatype TouchstickId = LTouchstick | RTouchstick

  /** MAX_TOUCH_STICKS, the enumerator that follows RTouchstick; it sizes Touchsticks. */
  const MAX_TOUCH_STICKS: nat := 2

  function TouchstickIndex(t: TouchstickId): (i: nat)
    ensures i < MAX_TOUCH_STICKS
    ensures t == LTouchstick <==> i == 0
  {
    match t
    case LTouchstick => 0
    case RTouchstick => 1
  }

  /** The touchstick whose enumerator value is i, if there is one. */
  function TouchstickAt(i: int): (r: Option<TouchstickId>)
    ensures r.Some? <==> 0 <= i < MAX_TOUCH_STICKS
    ensures r.Some? ==> TouchstickIndex(r.value) == i
  {
    if i == 0 then Some(LTouchstick)
    else if i == 1 then Some(RTouchstick)
    else None
  }

  /** The stick a bool "leftStick" argument selects. */
  function StickOf(leftStick: bool): (t: TouchstickId)
    ensures leftStick <==> t == LTouchstick
  {
    if leftStick then LTouchstick else RTouchstick
  }

  /** The other stick of the pair. */
  function Other(t: TouchstickId): (u: TouchstickId)
    ensures u != t
    ensures TouchstickIndex(u) == 1 - TouchstickIndex(t)
  {
    match t
    case LTouchstick => RTouchstick
    case RTouchstick => LTouchstick
  }

  /** The engine's FVector2D, its float components taken as reals. */
  datatype Vector2D = Vector2D(X: real, Y: real)

  const ZeroVector: Vector2D := Vector2D(0.0, 0.0)

  /** The engine's FRotator: pitch, yaw and roll in degrees, unbounded. */
  datatype Rotator = Rotator(Pitch: real, Yaw: real, Roll: real)

  /** One virtual touchstick: the first-touch latch, its capture radius, the
      centre latched at touch-down and the live touch position. */
  datatype Touchstick = Touchstick(FirstTouch: bool, Radius: real, Center: Vector2D, StickPos: Vector2D)

  /** A ButtonAction function pointer, named by the function it points to.
      HandleButtonCallbacks (in the character) is the only function the
      repository ever registers (HandleButtonCallbacksFn stands for the pointer
      &HandleButtonCallbacks); a null pointer is None in the table. */
  datatype ButtonAction = HandleButtonCallbacksFn

  /** One call of a registered ButtonAction: the function, and the arguments
      (button, owner, pressed) it receives. */
  datatype Invocation = Invocation(action: ButtonAction, button: Button, owner: object?, pressed: bool)
}
