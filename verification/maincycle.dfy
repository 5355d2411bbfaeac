/**
 One pass of the main loop as a function of the toggle state and the two
 samples read in that pass: the LED levels written and the frame drawn. The
 loop itself never changes the toggle state; only the handlers do, between
 passes.
 */
module MainCycle {
  import opened Brightness
  import opened Toggles
  import opened Render
  import opened Cursor

  /** What one pass writes to the outside world. */
  datatype Output = Output(duties: Duties, frame: seq<DrawCmd>)

  function Cycle(s: State, x: Sample, y: Sample): (o: Output)
    ensures Outline in o.frame <==> s.borderToggle
    ensures !s.pwmEnabled ==> o.duties == Duties(0, 0)
    ensures s.pwmEnabled ==> o.duties.blue == 2 * Abs(x - CENTER) && o.duties.red == 2 * Abs(y - CENTER)
    ensures forall i :: 0 <= i < |o.frame| ==> OnScreen(o.frame[i])
    ensures |o.frame| == (if s.borderToggle then 4 else 3)
    ensures o.frame[0] == Fill(false) && o.frame[|o.frame| - 1] == Send
    ensures forall i :: 0 <= i < |o.frame| && o.frame[i].Rect? && o.frame[i].filled ==> i == |o.frame| - 2
    ensures o.frame[|o.frame| - 2] == Rect(Pos(x, WIDTH), Pos(y, HEIGHT), CURSOR_SIZE, CURSOR_SIZE, true, true)
  {
    Output(Duty(s.pwmEnabled, x, y), Frame(s.borderToggle, x, y))
  }

  /** Before any button is pressed the LEDs follow the joystick and no
      border is drawn. */
  lemma InitialCycle(x: Sample, y: Sample)
    ensures Outline !in Cycle(Init, x, y).frame
    ensures Cycle(Init, x, y).duties == Duties(Level(x), Level(y))
  {
  }

  /** A joystick-button press changes only whether the outline is drawn. */
  lemma JoystickPressTogglesOutline(s: State, x: Sample, y: Sample)
    ensures var before, after := Cycle(s, x, y), Cycle(OnJoystick(s, JOYSTICK_BTN), x, y);
      && after.duties == before.duties
      && (Outline in after.frame <==> Outline !in before.frame)
      && after.frame[|after.frame| - 2] == before.frame[|before.frame| - 2]
  {
  }

  /** A button-A press changes only the LED levels, switching them between
      the mapped levels and 0. */
  lemma ButtonAPressTogglesPwm(s: State, x: Sample, y: Sample)
    ensures var before, after := Cycle(s, x, y), Cycle(OnButtonA(s, BUTTON_A), x, y);
      && after.frame == before.frame
      && (s.pwmEnabled ==> after.duties == Duties(0, 0))
      && (!s.pwmEnabled ==> after.duties == Duties(Level(x), Level(y)))
  {
  }

  /** With constant samples, any handler calls in which each button was
      pressed an even number of times leave the next pass's output exactly as
      it was: the loop's output depends on the history only through parities. */
  lemma EvenPressesChangeNothing(s: State, events: seq<Event>, x: Sample, y: Sample)
    requires CountJoystick(events) % 2 == 0 && CountButtonA(events) % 2 == 0
    ensures Cycle(Run(s, events), x, y) == Cycle(s, x, y)
    ensures Run(s, events) == s
  {
    RunParity(s, events);
  }
}
