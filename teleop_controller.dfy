/** The timer-driven controller of main/teleop_controller.c: the global Twist
    message, the publisher it is sent to, and one firing of timer_callback. */
module TeleopController {
  import opened CommandMapper

  datatype Vector3 = Vector3(x: real, y: real, z: real)

  /** geometry_msgs/Twist: three linear and three angular components. */
  datatype Twist = Twist(linear: Vector3, angular: Vector3)

  const ZERO_TWIST: Twist := Twist(Vector3(0.0, 0.0, 0.0), Vector3(0.0, 0.0, 0.0))

  /** The four components the controller never sets are zero. */
  predicate Planar(t: Twist) {
    t.linear.y == 0.0 && t.linear.z == 0.0 && t.angular.x == 0.0 && t.angular.y == 0.0
  }

  /** What a planar message carrying command c looks like. */
  function CommandTwist(c: VelocityCommand): Twist {
    Twist(Vector3(c.linearX, 0.0, 0.0), Vector3(0.0, 0.0, c.angularZ))
  }

  /** A published message within the ranges a 12-bit sample yields. */
  predicate InCommandRange(t: Twist) {
    -1.0 <= t.linear.x <= 1.0 && -1.0 <= t.angular.z < 1.0
  }

  /** One read of an analog channel: a sample, or a driver fault. */
  datatype AdcRead = Read(value: int) | ReadFault

  /** Everything one firing of the timer consumes: whether the timer handle
      is non-null, the two analog reads and the button level. */
  datatype TickInput = TickInput(timerNonNull: bool, x: AdcRead, y: AdcRead, button: bool)

  datatype TickOutcome = Idle | Aborted | Sent

  /** The observable state: the global message and every message handed to
      the publisher so far, oldest first. */
  datatype ControllerState = ControllerState(msg: Twist, published: seq<Twist>)

  /** The readings of a firing whose two analog reads both succeeded. */
  function SampleOf(i: TickInput): JoystickSample
    requires i.x.Read? && i.y.Read?
  {
    JoystickSample(i.x.value, i.y.value, i.button)
  }

  /** A tick that reaches the publish call: a valid timer and no read fault. */
  predicate Fires(i: TickInput) {
    i.timerNonNull && i.x.Read? && i.y.Read?
  }

  /** Every analog value this tick reads lies in the converter's range. */
  predicate ReadsInRange(i: TickInput) {
    (i.x.Read? ==> InAdcRange(i.x.value)) && (i.y.Read? ==> InAdcRange(i.y.value))
  }

  function OutcomeOf(i: TickInput): TickOutcome {
    if !i.timerNonNull then Idle
    else if !(i.x.Read? && i.y.Read?) then Aborted
    else Sent
  }

  /** One firing of timer_callback on the observable state: when it fires,
      linear.x and angular.z of the message are overwritten with the mapped
      command and the whole message is published once; otherwise nothing
      changes. */
  function Step(s: ControllerState, i: TickInput): ControllerState {
    if Fires(i) then
      var c := Map(SampleOf(i));
      var m := s.msg.(linear := s.msg.linear.(x := c.linearX),
                      angular := s.msg.angular.(z := c.angularZ));
      ControllerState(m, s.published + [m])
    else s
  }

  /** The state after the executor has fired the timer once per input. */
  function Run(s: ControllerState, inputs: seq<TickInput>): ControllerState
    decreases |inputs|
  {
    if inputs == [] then s
    else Step(Run(s, inputs[..|inputs| - 1]), inputs[|inputs| - 1])
  }

  /** The messages a run publishes: one planar message per firing tick,
      carrying that tick's command, in tick order. */
  function Commands(inputs: seq<TickInput>): seq<Twist>
    decreases |inputs|
  {
    if inputs == [] then []
    else
      var last := inputs[|inputs| - 1];
      Commands(inputs[..|inputs| - 1])
        + if Fires(last) then [CommandTwist(Map(SampleOf(last)))] else []
  }

  /** A single firing publishes exactly one message, the new contents of
      msg; a null timer or a read fault publishes nothing and changes
      nothing; the untouched four components keep their values. */
  lemma StepPublishesOnce(s: ControllerState, i: TickInput)
    ensures Fires(i) ==> Step(s, i).published == s.published + [Step(s, i).msg]
    ensures !Fires(i) ==> Step(s, i) == s
    ensures Step(s, i).msg.linear.y == s.msg.linear.y && Step(s, i).msg.linear.z == s.msg.linear.z
    ensures Step(s, i).msg.angular.x == s.msg.angular.x && Step(s, i).msg.angular.y == s.msg.angular.y
  {
  }

  /** A firing tick's message does not depend on the previous message once
      the message is planar: no state is carried from one tick to the next. */
  lemma StepForgetsPrevious(s: ControllerState, s': ControllerState, i: TickInput)
    requires Planar(s.msg) && Planar(s'.msg)
    requires Fires(i)
    ensures Step(s, i).msg == Step(s', i).msg == CommandTwist(Map(SampleOf(i)))
  {
  }

  /** Starting from a planar message, a run publishes exactly Commands(inputs)
      and leaves the message planar. */
  lemma {:induction false} RunPublishes(s: ControllerState, inputs: seq<TickInput>)
    requires Planar(s.msg)
    ensures Planar(Run(s, inputs).msg)
    ensures Run(s, inputs).published == s.published + Commands(inputs)
    decreases |inputs|
  {
    if inputs != [] {
      var prefix, last := inputs[..|inputs| - 1], inputs[|inputs| - 1];
      RunPublishes(s, prefix);
      var before := Run(s, prefix);
      assert Run(s, inputs) == Step(before, last);
      if Fires(last) {
        assert Step(before, last).msg == CommandTwist(Map(SampleOf(last)));
        calc {
          Run(s, inputs).published;
          before.published + [CommandTwist(Map(SampleOf(last)))];
          s.published + Commands(prefix) + [CommandTwist(Map(SampleOf(last)))];
          s.published + (Commands(prefix) + [CommandTwist(Map(SampleOf(last)))]);
          s.published + Commands(inputs);
        }
      } else {
        assert Commands(inputs) == Commands(prefix) + [];
      }
    }
  }

  /** One published message per firing tick, none for the others. */
  lemma {:induction false} CommandsCount(inputs: seq<TickInput>)
    ensures |Commands(inputs)| <= |inputs|
    ensures (forall k :: 0 <= k < |inputs| ==> Fires(inputs[k])) ==> |Commands(inputs)| == |inputs|
    ensures (forall k :: 0 <= k < |inputs| ==> !Fires(inputs[k])) ==> Commands(inputs) == []
    decreases |inputs|
  {
    if inputs != [] {
      CommandsCount(inputs[..|inputs| - 1]);
    }
  }

  /** When every sample lies in the 12-bit range, every published message is
      planar with |linear.x| <= 1 and angular.z in [-1, 1). */
  lemma {:induction false} CommandsInRange(inputs: seq<TickInput>)
    requires forall k :: 0 <= k < |inputs| ==> ReadsInRange(inputs[k])
    ensures forall k :: 0 <= k < |Commands(inputs)| ==>
      Planar(Commands(inputs)[k]) && InCommandRange(Commands(inputs)[k])
    decreases |inputs|
  {
    if inputs != [] {
      var prefix, last := inputs[..|inputs| - 1], inputs[|inputs| - 1];
      CommandsInRange(prefix);
      if Fires(last) {
        var t := CommandTwist(Map(SampleOf(last)));
        assert Planar(t) && InCommandRange(t);
        assert Commands(inputs) == Commands(prefix) + [t];
      } else {
        assert Commands(inputs) == Commands(prefix);
      }
    }
  }

  /** The controller's global state: the six fields of msg and the sequence
      of messages handed to the publisher. */
  class Controller {
    var linearX: real
    var linearY: real
    var linearZ: real
    var angularX: real
    var angularY: real
    var angularZ: real
    var published: seq<Twist>

    function Msg(): Twist
      reads this
    {
      Twist(Vector3(linearX, linearY, linearZ), Vector3(angularX, angularY, angularZ))
    }

    function State(): ControllerState
      reads this
    {
      ControllerState(Msg(), published)
    }

    /** msg and everything published so far carry zeros in the four
        components the controller never sets. */
    ghost predicate Valid()
      reads this
    {
      Planar(Msg()) && forall k :: 0 <= k < |published| ==> Planar(published[k])
    }

    /** Start-up: every component of msg is zeroed before the executor runs. */
    constructor ()
      ensures State() == ControllerState(ZERO_TWIST, [])
      ensures Valid()
    {
      linearX := 0.0;
      linearY := 0.0;
      linearZ := 0.0;
      angularX := 0.0;
      angularY := 0.0;
      angularZ := 0.0;
      published := [];
    }

    /** Hand the current message to the publisher. A transport failure is
        only logged by the source, so every call is recorded. */
    method Publish()
      modifies this`published
      ensures published == old(published) + [Msg()]
    {
      published := published + [Msg()];
    }

    /** One firing of timer_callback: read the stick, normalise, choose the
        branch by button and by the side and size of the turn input, write
        linear.x and angular.z, and publish. */
    method Tick(timerNonNull: bool, x: AdcRead, y: AdcRead, button: bool) returns (outcome: TickOutcome)
      modifies this`linearX, this`angularZ, this`published
      ensures State() == Step(old(State()), TickInput(timerNonNull, x, y, button))
      ensures outcome == OutcomeOf(TickInput(timerNonNull, x, y, button))
      ensures outcome == Sent ==> |published| == |old(published)| + 1 && published[|published| - 1] == Msg()
      ensures outcome != Sent ==> published == old(published) && Msg() == old(Msg())
      ensures old(Valid()) ==> Valid()
    {
      if !timerNonNull {
        return Idle;
      }
      if x.ReadFault? || y.ReadFault? {
        return Aborted;
      }
      var adc1raw := Forward(x.value);
      var adc2raw := CenteredTurn(y.value);
      if button {
        // forward
        if adc2raw >= 0.0 {
          if adc2raw < LEFT_LIMIT {
            linearX, angularZ := adc1raw, 0.0;
            Publish();
          } else {
            adc2raw := adc2raw / TURN_DIVISOR;
            linearX, angularZ := adc1raw, adc2raw;
            Publish();
          }
        } else {
          if adc2raw > RIGHT_LIMIT {
            linearX, angularZ := adc1raw, 0.0;
            Publish();
          } else {
            adc2raw := adc2raw / TURN_DIVISOR;
            linearX, angularZ := adc1raw, adc2raw;
            Publish();
          }
        }
      } else {
        // reverse
        adc1raw := adc1raw * -1.0;
        if adc2raw >= 0.0 {
          if adc2raw < LEFT_LIMIT {
            linearX, angularZ := adc1raw, 0.0;
            Publish();
          } else {
            adc2raw := adc2raw / TURN_DIVISOR;
            linearX, angularZ := adc1raw, adc2raw;
            Publish();
          }
        } else {
          if adc2raw > RIGHT_LIMIT {
            linearX, angularZ := adc1raw, 0.0;
            Publish();
          } else {
            adc2raw := adc2raw / TURN_DIVISOR;
            linearX, angularZ := adc1raw, adc2raw;
            Publish();
          }
        }
      }
      return Sent;
    }
  }
}
