# Joystick, PWM LEDs and display: a Dafny model of the per-cycle logic

This project models the decision logic of `Adc_Pwm_Display.c`, firmware for a
two-axis analog joystick, two PWM-dimmed LEDs and a 128x64 monochrome display.
The model covers four parts:

- **Brightness mapper** (`Brightness`). Each 12-bit sample becomes the PWM level
  `2 * |v - 2048|`: X drives the blue LED and Y drives the red one. Both levels
  are 0 while PWM is switched off.
- **Cursor mapper** (`Cursor`). A sample is scaled to the top-left coordinate
  `(v * (dim - 8)) / 4095` of an 8x8 square, using integer division.
- **Toggle state** (`Toggles`). This is the record `{pwmEnabled, borderToggle,
  ledState}`, which starts as `{true, false, false}`. The joystick-button
  interrupt handler and the button-A interrupt handler change it. Each handler
  acts only when it is called with its own pin (22 or 5).
- **Frame** (`Render`) and **one pass of the main loop** (`MainCycle`). A frame is
  the list of display-library calls made in one pass: clear, the optional
  full-screen outline, the filled cursor square, and the push to the display.

Samples are integers in [0, 4095]. The `int` value of the brightness expression is
stored into a `uint16_t`. That store is modelled as a reduction modulo 2^16, and
the model proves that it never truncates. The cursor mapper takes the axis length
as a parameter `dim >= 8`. The frame uses the display size 128x64.

The firmware has no centre calibration, clamping or deadzone. Its border toggle is
two-valued. Its buttons are handled by edge-triggered interrupt handlers.

## Model

| member | source | states |
|---|---|---|
| Brightness.Level | Adc_Pwm_Display.c:97-101 | The level equals twice the sample's distance from 2048 and lies in [0, 4096]. It is 0 exactly at 2048 and 4096 exactly at sample 0. |
| Brightness.Duty | Adc_Pwm_Display.c:95-106 | When PWM is disabled, both channels are 0 whatever the samples are. When it is enabled, blue is `2*|x-2048|` and red is `2*|y-2048|`. |
| Brightness.NoTruncation | Adc_Pwm_Display.c:97 | Storing the `int` expression into a `uint16_t` leaves it unchanged, because the value is below 2^16. |
| Brightness.LevelSymmetric | Adc_Pwm_Display.c:97 | Samples mirrored around 2048 give equal levels. |
| Brightness.LevelEqualIff | Adc_Pwm_Display.c:97 | Two samples give the same level exactly when they are equal or sum to 4096. |
| Brightness.LevelMonotoneAway | Adc_Pwm_Display.c:97 | The level never decreases as the sample moves away from 2048, on either side. |
| Brightness.AboveWrapOnlyAtZero | Adc_Pwm_Display.c:97 | The level exceeds the PWM wrap value 4095, which is set at line 30, exactly when the sample is 0. |
| Brightness.NoCrossTalk | Adc_Pwm_Display.c:95-106 | The blue level does not depend on Y, and the red level does not depend on X. |
| Cursor.Pos | Adc_Pwm_Display.c:112 | The coordinate lies in [0, dim-8]. Sample 0 maps to 0 and sample 4095 maps exactly to dim-8. |
| Cursor.PosMonotone | Adc_Pwm_Display.c:112 | A larger sample never gives a smaller coordinate. |
| Cursor.MinSample | Adc_Pwm_Display.c:112 | On axes of at most 4103 pixels (128 and 64 included), the sample `ceil(p*4095/(dim-8))` scales to at least `p*4095`, and the sample one below it scales to less. |
| Cursor.PosAtLeastIff | Adc_Pwm_Display.c:112 | On axes of at most 4103 pixels (128 and 64 included), the coordinate is at least p exactly when the sample is at least `MinSample(p)`. This is the inverse of the mapping, in both directions. |
| Cursor.PosOnto | Adc_Pwm_Display.c:112 | On axes of at most 4103 pixels (128 and 64 included), every coordinate in [0, dim-8] is reached, and `MinSample(p)` is the least sample that reaches p. |
| Cursor.PosCentred | Adc_Pwm_Display.c:112 | On an axis of even length below 8198 pixels (128 and 64 included), the rest sample 2048 gives `dim/2 - 4`, which centres the square. |
| Toggles.OnJoystick | Adc_Pwm_Display.c:39-47 | Called with pin 22, the handler flips both the LED flag and the border flag. Any other pin flips neither. `pwmEnabled` never changes. |
| Toggles.OnButtonA | Adc_Pwm_Display.c:49-54 | The handler flips `pwmEnabled` exactly when it is called with pin 5. It leaves the other two flags unchanged. |
| Toggles.JoystickInvolution | Adc_Pwm_Display.c:42-46 | Two joystick-handler calls with the same pin restore the state. |
| Toggles.ButtonAInvolution | Adc_Pwm_Display.c:51-53 | Two button-A-handler calls with the same pin restore the state. |
| Toggles.HandlersCommute | Adc_Pwm_Display.c:39-54 | The two handlers can run in either order with the same result. |
| Toggles.RunParity | Adc_Pwm_Display.c:39-54 | After any sequence of handler calls, each flag equals its start value flipped once per call that acted on it. |
| Toggles.RunAppend | Adc_Pwm_Display.c:39-54 | Running two call sequences one after the other equals running their concatenation. |
| Toggles.LedMirrorsBorder | Adc_Pwm_Display.c:41-45 | Starting from the initial globals, the LED flag written to the green LED pin always equals the border flag. |
| Render.Frame | Adc_Pwm_Display.c:108-113 | A frame starts with a clear and ends with the push to the display. It contains the outline exactly when the border toggle is set. Every rectangle lies on the 128x64 screen. The only filled rectangle is the 8x8 cursor, drawn last, at `(Pos(x, 128), Pos(y, 64))`, the mapped position of the two samples. |
| Render.CursorMonotone | Adc_Pwm_Display.c:112 | The cursor moves monotonically with each sample along that sample's own axis. |
| Render.RestCursorCentred | Adc_Pwm_Display.c:112 | The rest samples (2048, 2048) put the cursor at (60, 28), the centre of the screen. |
| Render.FullScaleCursorInCorner | Adc_Pwm_Display.c:112 | The samples (4095, 4095) put the cursor against the far edges of the screen. |
| Render.CursorReachesEveryPosition | Adc_Pwm_Display.c:112 | Some pair of samples reaches every cursor position on the screen, whether or not the outline is drawn. |
| MainCycle.Cycle | Adc_Pwm_Display.c:95-113 | In one pass, the outline is drawn exactly when the border toggle is set. The LED levels are 0 when PWM is off and follow the distances from 2048 when it is on. The frame has exactly 3 commands, or 4 with the outline. It starts with a clear and ends with the push to the display. The only filled rectangle is the cursor, drawn last, at the mapped position `(Pos(x, 128), Pos(y, 64))`. Everything drawn is on screen. |
| MainCycle.InitialCycle | Adc_Pwm_Display.c:24-25 | With the initial globals, no outline is drawn and both LEDs follow the joystick. |
| MainCycle.JoystickPressTogglesOutline | Adc_Pwm_Display.c:109-111 | A joystick-button press changes whether the outline is drawn. It does not change the LED levels or the cursor. |
| MainCycle.ButtonAPressTogglesPwm | Adc_Pwm_Display.c:95-106 | A button-A press switches the LEDs between the mapped levels and 0. It does not change the frame. |
| MainCycle.EvenPressesChangeNothing | Adc_Pwm_Display.c:39-54 | After handler calls that press each button an even number of times, the state and the next pass's output are the same as before. |

## Left out

- Peripheral setup is left out: `setup_pwm`, ADC, I2C and GPIO initialisation, and `ssd1306_init`. Each is a short, branch-free sequence of vendor-SDK calls. The wrap value 4095 that `setup_pwm` sets (Adc_Pwm_Display.c:30) is taken as the constant `Brightness.PWM_WRAP`. The start-up level 0 it writes to each LED (line 32) is not modelled, because the model starts at the first pass of the loop. For the same reason, the blank frame that is cleared and pushed to the display before the loop (lines 75-76) is not modelled.
- The pixel-level behaviour of `ssd1306_fill`, `ssd1306_rect` and `ssd1306_send_data` is left out. `lib/ssd1306.h` and its implementation are not part of this model. Draw calls are kept as commands whose arguments are in call order. `Render.OnScreen` reads the first coordinate against the width and the second against the height, as the call at line 112 does. Whether the library itself interprets them that way has not been checked.
- Timing is left out: the 50 ms `debounce_delay` inside each handler and the 50 ms loop period. Durations are not modelled.
- Interrupt concurrency is left out. Each handler call is an atomic transition applied between two passes of the main loop. Torn reads of the flags during a pass are not modelled.
- Which handler the SDK dispatches for which pin is left out. It depends on the callback semantics of `gpio_set_irq_enabled_with_callback` (lines 82 and 87), which are not visible. Each handler is modelled only as a function of its `gpio` argument. The handlers' `events` argument is ignored by the source, so it is dropped.
- `gpio_put(LED_GREEN, led_state)` is represented by the `ledState` field. There is no separate pin model.
- The infinite `while (true)` loop is modelled as one pass, `MainCycle.Cycle`, applied to a state that only the handlers change.
