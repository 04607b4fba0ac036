/** The per-tick translation from joystick readings to a velocity command,
    as computed inside timer_callback of main/teleop_controller.c.

    The controller's float arithmetic is modelled with exact reals. The turn
    path only divides a small integer by powers of two, so it is exact in
    binary floating point as well; the forward path divides by 4095. */
module CommandMapper {

  /** Largest sample of the 12-bit analog converter. */
  const ADC_MAX: int := 4095
  /** Raw y value of the centred stick. */
  const Y_CENTER: int := 2048
  /** Divisor that scales the centred y value to roughly [-2, 2]. */
  const Y_SPAN: int := 1024
  /** Dead-band edge on the non-negative side ("left_limit" in the source). */
  const LEFT_LIMIT: real := 0.5
  /** Dead-band edge on the negative side ("right_limit" in the source). */
  const RIGHT_LIMIT: real := -0.5
  /** Outside the dead band the scaled turn input is halved. */
  const TURN_DIVISOR: real := 2.0

  /** The readings of one tick: two analog samples and the mode button
      (pressed = forward, released = reverse). */
  datatype JoystickSample = JoystickSample(rawX: int, rawY: int, button: bool)

  /** The two fields of the outbound Twist that the controller sets. */
  datatype VelocityCommand = VelocityCommand(linearX: real, angularZ: real)

  /** A value the 12-bit converter can report. */
  predicate InAdcRange(v: int) {
    0 <= v <= ADC_MAX
  }

  function Abs(r: real): real {
    if r < 0.0 then -r else r
  }

  /** Forward magnitude: the x sample normalised to [0, 1]. */
  function Forward(rawX: int): (f: real)
    ensures InAdcRange(rawX) ==> 0.0 <= f <= 1.0
    ensures f == 1.0 <==> rawX == ADC_MAX
    ensures f == 0.0 <==> rawX == 0
  {
    rawX as real / ADC_MAX as real
  }

  /** Turn input: the y sample centred on Y_CENTER and divided by Y_SPAN. */
  function CenteredTurn(rawY: int): (t: real)
    ensures InAdcRange(rawY) ==> -2.0 <= t < 2.0
    ensures t == 0.0 <==> rawY == Y_CENTER
    ensures t < 0.0 <==> rawY < Y_CENTER
  {
    (rawY as real - Y_CENTER as real) / Y_SPAN as real
  }

  /** The dead-band rule exactly as the source branches: first on the sign
      of the turn input, then against the limit on that side. */
  function TurnRate(turn: real): (z: real)
    // the two one-sided strict tests make one symmetric open band
    ensures z == 0.0 <==> RIGHT_LIMIT < turn < LEFT_LIMIT
    ensures !(RIGHT_LIMIT < turn < LEFT_LIMIT) ==> z * TURN_DIVISOR == turn
    ensures Abs(z) * TURN_DIVISOR <= Abs(turn)
  {
    if turn >= 0.0 then
      if turn < LEFT_LIMIT then 0.0 else turn / TURN_DIVISOR
    else
      if turn > RIGHT_LIMIT then 0.0 else turn / TURN_DIVISOR
  }

  /** The command published for one sample: the button alone decides the
      sign of linear.x, and angular.z is the same function of rawY whichever
      way the button is. */
  function Map(s: JoystickSample): (c: VelocityCommand)
    ensures Abs(c.linearX) == Abs(Forward(s.rawX))
    ensures InAdcRange(s.rawX) ==> if s.button then c.linearX >= 0.0 else c.linearX <= 0.0
    ensures InAdcRange(s.rawX) ==> -1.0 <= c.linearX <= 1.0
    ensures InAdcRange(s.rawY) ==> -1.0 <= c.angularZ < 1.0
  {
    var forward := if s.button then Forward(s.rawX) else -Forward(s.rawX);
    VelocityCommand(forward, TurnRate(CenteredTurn(s.rawY)))
  }

  /** The dead band and the scaled turn rate stated over the integer offset
      d = rawY - Y_CENTER: the band is -512 < d < 512 and outside it the rate
      is d / 2048. */
  lemma TurnRateByOffset(rawY: int)
    ensures var d := rawY - Y_CENTER;
      TurnRate(CenteredTurn(rawY)) == if -512 < d < 512 then 0.0 else d as real / 2048.0
  {
  }

  /** linear.x depends on rawX and the button only; angular.z on rawY only;
      releasing the button negates linear.x and leaves angular.z alone. */
  lemma AxesIndependent(rawX: int, rawY: int, rawX': int, rawY': int, button: bool, button': bool)
    ensures Map(JoystickSample(rawX, rawY, button)).linearX
         == Map(JoystickSample(rawX, rawY', button)).linearX
    ensures Map(JoystickSample(rawX, rawY, button)).angularZ
         == Map(JoystickSample(rawX', rawY, button')).angularZ
    ensures Map(JoystickSample(rawX, rawY, false)).linearX
         == -Map(JoystickSample(rawX, rawY, true)).linearX
  {
  }

  /** Inside the dead band angular.z is 0 whatever rawX and the button are. */
  lemma DeadBandInterior(s: JoystickSample)
    requires -512 < s.rawY - Y_CENTER < 512
    ensures Map(s).angularZ == 0.0
  {
    TurnRateByOffset(s.rawY);
  }

  /** The readings at the edges of the band and of the converter's range. */
  lemma CharacteristicPoints()
    ensures Map(JoystickSample(ADC_MAX, Y_CENTER, true)) == VelocityCommand(1.0, 0.0)
    ensures Map(JoystickSample(ADC_MAX, Y_CENTER, false)) == VelocityCommand(-1.0, 0.0)
    ensures Map(JoystickSample(0, Y_CENTER, true)) == VelocityCommand(0.0, 0.0)
    ensures forall x, b :: Map(JoystickSample(x, 2560, b)).angularZ == 0.25
    ensures forall x, b :: Map(JoystickSample(x, 1536, b)).angularZ == -0.25
    ensures forall x, b :: Map(JoystickSample(x, 2559, b)).angularZ == 0.0
    ensures forall x, b :: Map(JoystickSample(x, 1537, b)).angularZ == 0.0
    ensures forall x, b :: Map(JoystickSample(x, 0, b)).angularZ == -1.0
    ensures forall x, b :: Map(JoystickSample(x, ADC_MAX, b)).angularZ == 2047.0 / 2048.0
  {
  }
}
