# Joystick teleoperation controller: command mapping and timer tick

This project models the control core of an ESP32 micro-ROS joystick
teleoperation node. Once per timer period the node reads two 12-bit analog
samples (x and y) and a mode button. It turns them into a
`geometry_msgs/Twist` velocity command and publishes it on `turtle1/cmd_vel`.

- `command_mapper.dfy` (module `CommandMapper`) holds the pure translation
  from one joystick sample to the two command fields.
  - The forward magnitude is `raw_x / 4095`.
  - The button gives its sign: pressed is forward, released is reverse.
  - The turn input is `(raw_y - 2048) / 1024`.
  - A dead band forces `angular.z` to 0 inside `(-0.5, 0.5)`. Outside the band,
    `angular.z` is the turn input halved.
- `teleop_controller.dfy` (module `TeleopController`) holds the global message
  and the publisher, as class `Controller`.
  - `Controller` has the six Twist fields and a trace of published messages.
  - The constructor zeroes the message at start-up.
  - `Tick` is one firing of `timer_callback`. It has the source's four-way
    branching and its in-place reassignment of the normalised locals.
  - `Tick` is proved equal to the state-transition function `Step`.
  - `Run` and `Commands` describe a sequence of firings, as the executor loop
    produces them.
  - Lemmas state what such a sequence publishes.

The float arithmetic of the source is modelled with exact reals. The turn path
divides a small integer by powers of two, so it is exact in binary floating
point as well. The forward path divides by 4095, and its rounding is not
modelled.

Inputs from hardware are parameters of `Tick`:
- whether the timer handle is non-null;
- the two analog reads, each either a value or a driver fault;
- the button level.

## Model

| member | source | states |
|---|---|---|
| `CommandMapper.Forward` | main/teleop_controller.c:66 | For a 12-bit sample the forward magnitude lies in [0, 1]. It is exactly 1 iff `raw_x` is 4095 and exactly 0 iff `raw_x` is 0. |
| `CommandMapper.CenteredTurn` | main/teleop_controller.c:67-68 | For a 12-bit sample the turn input lies in [-2, 2). It is 0 iff `raw_y` is 2048 and negative iff `raw_y` is below 2048. |
| `CommandMapper.TurnRate` | main/teleop_controller.c:63-103 | The nested sign test and one-sided strict limit tests make one symmetric open dead band: the rate is 0 iff -0.5 < turn < 0.5. Outside the band, twice the rate is the turn input. The rate never exceeds half the input in magnitude. |
| `CommandMapper.Map` | main/teleop_controller.c:61-142 | The magnitude of linear.x is the forward magnitude. Its sign follows the button: non-negative when pressed, non-positive when released. For 12-bit samples linear.x is in [-1, 1] and angular.z is in [-1, 1). |
| `CommandMapper.TurnRateByOffset` | main/teleop_controller.c:67-103 | Over the integer offset d = raw_y - 2048: the dead band is exactly -512 < d < 512, and outside it angular.z is d / 2048. |
| `CommandMapper.AxesIndependent` | main/teleop_controller.c:70-142 | raw_y never affects linear.x. raw_x and the button never affect angular.z. Releasing the button negates linear.x. |
| `CommandMapper.DeadBandInterior` | main/teleop_controller.c:72-131 | When -512 < raw_y - 2048 < 512, angular.z is 0 whatever raw_x and the button are. |
| `CommandMapper.CharacteristicPoints` | main/teleop_controller.c:63-142 | Full throttle centred gives (1, 0) forward and (-1, 0) reverse. Zero x gives (0, 0). raw_y 2560 and 1536 sit on the band edge and give 0.25 and -0.25. raw_y 2559 and 1537 are inside the band and give 0. raw_y 0 gives -1 and raw_y 4095 gives 2047/2048. |
| `TeleopController.StepPublishesOnce` | main/teleop_controller.c:54-142 | A firing tick publishes exactly one message, the new contents of msg. A null timer or a read fault changes nothing and publishes nothing. linear.y, linear.z, angular.x and angular.y are never written. |
| `TeleopController.StepForgetsPrevious` | main/teleop_controller.c:70-142 | From any planar message, a firing tick leaves msg equal to the planar message carrying that tick's mapped command. Nothing from earlier ticks survives. |
| `TeleopController.RunPublishes` | main/teleop_controller.c:187-198 | Starting from a planar message, any sequence of firings publishes exactly `Commands(inputs)`, one message per firing tick in tick order. msg stays planar. |
| `TeleopController.CommandsCount` | main/teleop_controller.c:51-146 | A run publishes at most one message per tick. It publishes one per tick when every tick fires, and none when no tick fires. |
| `TeleopController.CommandsInRange` | main/teleop_controller.c:66-142 | When every sample is a 12-bit value, every published message is planar, with linear.x in [-1, 1] and angular.z in [-1, 1). |
| `TeleopController.Controller.constructor` | main/teleop_controller.c:187-192 | All six components of msg start at 0, nothing has been published, and the controller invariant holds. |
| `TeleopController.Controller.Publish` | main/teleop_controller.c:78 | The current msg is appended to the published trace. |
| `TeleopController.Controller.Tick` | main/teleop_controller.c:51-146 | The new msg and trace are `Step` of the old ones. The outcome is Idle for a null timer, Aborted for a read fault and Sent otherwise. A Sent tick appends exactly the new msg. Any other tick leaves msg and the trace unchanged. Only linear.x, angular.z and the trace may change. The planar invariant is preserved. |

## Left out

- ADC and GPIO configuration, network-interface start-up and task creation in
  `app_main` (main/teleop_controller.c:206-236) are hardware setup.
- The micro-ROS bootstrap is not modelled: support, node, publisher, timer and
  executor creation (main/teleop_controller.c:148-186), and the unreachable
  teardown. The executor's endless `spin_some`/`usleep` loop is represented only
  by `Run`, which applies one tick per input in order.
- The 1000 ms timer period, the 100 ms spin timeout, the 10 ms sleep and the
  `vTaskDelay(1)` at the end of a tick are scheduling, not logic.
- `Controller.Tick`: on a read fault the source's `ESP_ERROR_CHECK` aborts the
  program. The model instead returns `Aborted` and leaves msg and the trace
  unchanged. It does not model the abort itself, and it does not model the
  rule that no later tick can run after an abort.
- `Controller.Publish`: the source logs the status of `rcl_publish` and ignores
  it, so every call is recorded in the trace. A transport failure is not
  modelled, so no state can carry a failed publish into a later tick.
- `CommandMapper.Forward`: this member does not model the single-precision
  rounding of `raw_x / 4095.0f`. Exact reals are used, so values other than 0
  and 4095 may differ from the float result in the last bit.
- The unused `last_call_time` argument of the callback is not modelled.
- The button level comes from `gpio_get_level`, converted to `bool`. It is
  modelled as a `bool`, so the source's `== 1` / `== 0` tests are exhaustive.
  The `adc2raw >= 0` / `< 0` tests are exhaustive as well, because the value
  is finite. `Tick` therefore uses plain `else` branches.
