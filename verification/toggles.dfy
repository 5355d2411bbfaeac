/**
 The toggle state shared by the two button interrupt handlers and the main
 loop. Each handler call is modelled as one atomic transition of an immutable
 state record, applied between two cycles of the main loop.
 */
module Toggles {

  /** A GPIO number as the handlers receive it (a 32-bit `uint`). */
  type Gpio = g: int | 0 <= g < 0x1_0000_0000

  /** The joystick's push button. */
  const JOYSTICK_BTN: Gpio := 22

  /** Button A. */
  const BUTTON_A: Gpio := 5

  /** The two global flags and the joystick handler's static LED flag, whose
      value the handler writes to the green LED pin. */
  datatype State = State(pwmEnabled: bool, borderToggle: bool, ledState: bool)

  /** The values the globals and the static flag start with. */
  const Init: State := State(true, false, false)

  /** The joystick-button handler: on its own pin it flips the LED flag
      (written to the green LED pin) and the border; any other pin leaves
      everything as it was. */
  function OnJoystick(s: State, gpio: Gpio): (r: State)
    ensures r.pwmEnabled == s.pwmEnabled
    ensures r.borderToggle != s.borderToggle <==> gpio == JOYSTICK_BTN
    ensures r.ledState != s.ledState <==> gpio == JOYSTICK_BTN
  {
    if gpio == JOYSTICK_BTN then
      s.(ledState := !s.ledState, borderToggle := !s.borderToggle)
    else
      s
  }

  /** The button-A handler: on its own pin it flips PWM on or off; any other
      pin leaves everything as it was. */
  function OnButtonA(s: State, gpio: Gpio): (r: State)
    ensures r.borderToggle == s.borderToggle && r.ledState == s.ledState
    ensures r.pwmEnabled != s.pwmEnabled <==> gpio == BUTTON_A
  {
    if gpio == BUTTON_A then s.(pwmEnabled := !s.pwmEnabled) else s
  }

  /** Two joystick-button events restore the original state. */
  lemma JoystickInvolution(s: State, gpio: Gpio)
    ensures OnJoystick(OnJoystick(s, gpio), gpio) == s
  {
  }

  /** Two button-A events restore the original state. */
  lemma ButtonAInvolution(s: State, gpio: Gpio)
    ensures OnButtonA(OnButtonA(s, gpio), gpio) == s
  {
  }

  /** The two handlers touch disjoint fields, so their order does not matter. */
  lemma HandlersCommute(s: State, g1: Gpio, g2: Gpio)
    ensures OnJoystick(OnButtonA(s, g1), g2) == OnButtonA(OnJoystick(s, g2), g1)
  {
  }

  /** One handler invocation, with the pin number it is called with. */
  datatype Event = JoystickIrq(gpio: Gpio) | ButtonAIrq(gpio: Gpio)

  function Step(s: State, e: Event): State {
    match e
    case JoystickIrq(g) => OnJoystick(s, g)
    case ButtonAIrq(g) => OnButtonA(s, g)
  }

  /** The state after a sequence of handler invocations, in order. */
  function Run(s: State, events: seq<Event>): State
    decreases |events|
  {
    if |events| == 0 then s else Run(Step(s, events[0]), events[1..])
  }

  /** Number of joystick-handler calls made with the joystick button's pin. */
  function CountJoystick(events: seq<Event>): nat {
    if |events| == 0 then 0
    else (if events[0] == JoystickIrq(JOYSTICK_BTN) then 1 else 0) + CountJoystick(events[1..])
  }

  /** Number of button-A-handler calls made with button A's pin. */
  function CountButtonA(events: seq<Event>): nat {
    if |events| == 0 then 0
    else (if events[0] == ButtonAIrq(BUTTON_A) then 1 else 0) + CountButtonA(events[1..])
  }

  predicate Odd(n: nat) {
    n % 2 == 1
  }

  /** After any sequence of events each flag has been flipped once per event
      that its handler acted on, and by nothing else. */
  lemma {:induction false} RunParity(s: State, events: seq<Event>)
    ensures Run(s, events).borderToggle == (s.borderToggle != Odd(CountJoystick(events)))
    ensures Run(s, events).ledState == (s.ledState != Odd(CountJoystick(events)))
    ensures Run(s, events).pwmEnabled == (s.pwmEnabled != Odd(CountButtonA(events)))
    decreases |events|
  {
    if |events| > 0 {
      RunParity(Step(s, events[0]), events[1..]);
    }
  }

  /** Running two sequences one after the other is running their concatenation. */
  lemma {:induction false} RunAppend(s: State, a: seq<Event>, b: seq<Event>)
    ensures Run(s, a + b) == Run(Run(s, a), b)
    decreases |a|
  {
    if |a| > 0 {
      assert (a + b)[1..] == a[1..] + b;
      RunAppend(Step(s, a[0]), a[1..], b);
    } else {
      assert a + b == b;
    }
  }

  /** From the initial state the value written to the green LED pin equals
      the border toggle, whatever handler calls have happened. */
  lemma LedMirrorsBorder(events: seq<Event>)
    ensures Run(Init, events).ledState == Run(Init, events).borderToggle
  {
    RunParity(Init, events);
  }
}
