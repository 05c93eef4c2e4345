# Windlass chain counter: direction classifier and pulse count

This project models the counting core of the WindlassSensor anchor-chain
counter (a SensESP sketch for an ESP32). A contact switch on the windlass
gypsy (chain wheel) produces transitions. Each debounced transition reaches a
direction classifier. The classifier samples the UP and DOWN control lines of
the windlass remote and turns the transition into a signed unit:

- a rising edge is not counted;
- a falling edge with UP alone hauls in (-1), but only while the count is
  above zero;
- a falling edge with DOWN alone (powered pay-out) or with neither line
  (free fall) pays out (+1);
- a falling edge with both lines asserted is ignored (0).

The unit is fed to an integrator, `IntegratorT<int,int>(1, 0)`, which keeps a
running integer total with multiplier 1 and start value 0. The clamp sits in
the classifier, not in the integrator. Even so, the count can never go below
zero. The UP button also drives a "reset" consumer, but its reset call is
commented out, so it never changes the count.

Modules:

- `Direction` (`direction.dfy`) is the pure part. It holds the `Pulse` value
  (the new gypsy level plus the UP/DOWN levels read when it is classified),
  `Classify`, and `Step` (classify, then add). It also holds `Run`, which is
  `Step` folded over a sequence of pulses, and the lemmas about `Run`.
- `ChainCounter` (`accumulator.dfy`) is the stateful part. `ChainAccumulator`
  is the integrator object. Its `count` field is updated in place by
  `Accumulate`. `OnPulse` is one pass of the chain: classifier, then
  integrator. A ghost history of pulses ties `count` to `Run` from the start
  value. `NewChainCounter` builds the counter as the sketch does, and
  `UpButtonConsumer` is the disabled reset consumer. `CountingScenarios` is
  an example client only, with no counterpart in the sketch: it pays out,
  hauls in and hits the clamp at zero using only the contracts above.

The `digitalRead(UP_PIN)` and `digitalRead(DOWN_PIN)` calls inside the
classifier become the `up` and `down` parameters. The scheduler supplies them
fresh at classification time.

The sketch's comments and its code disagree in three places. The model
follows the code:

- The header comment (src/main.cpp:18-27) and the comment above the button
  handler (src/main.cpp:183-188) say that a press of the button resets the
  count. The `reset()` call in that handler (src/main.cpp:193) is commented
  out, so the model's button consumer changes nothing.
- The comment at src/main.cpp:84 says only the falling edge is counted. The
  lambda still returns a unit for a rising edge, namely 0, and the integrator
  adds it. The model does the same, and the count is unchanged by it.
- The header comment says the counter does not tell chain let out from chain
  taken in (src/main.cpp:19-21, 29), and describes a workflow in which, after
  a reset to 0, the count shows how much chain has been brought in
  (src/main.cpp:22-26). The classifier does tell the directions apart: UP
  alone gives -1, DOWN alone or free fall gives +1 (src/main.cpp:94-102).
  From 0, UP-only edges are clamped (src/main.cpp:95-98), so the count stays
  at 0 rather than counting the chain brought in (`Direction.RunHauling`).

The C++ combines the two pin levels with bitwise `&` on `bool`. That equals
logical AND, and the model uses `&&`.

## Model

| member | source | states |
|---|---|---|
| `Direction.Classify` | src/main.cpp:78-105 | The unit is in {-1, 0, 1}. A rising edge gives 0. The unit is +1 exactly on a falling edge with UP released (DOWN-only or free fall). It is -1 exactly on a falling edge with UP alone and a count above 0. Every other case (UP alone at count <= 0, both lines, rising edges) gives 0. A non-negative count stays non-negative after adding the unit. |
| `Direction.Step` | src/main.cpp:154-156 | Classifying a pulse and adding its unit moves the count by at most one. It keeps a non-negative count non-negative. Ignored pulses leave the count unchanged. Paying-out pulses add one. Hauling pulses take one off a positive count and leave 0 or less unchanged. |
| `Direction.RunNeverNegative` | src/main.cpp:94-100 | For every sequence of (edge, UP, DOWN) inputs, a count that starts at 0 or above stays at 0 or above. The clamp in the classifier is enough without one in the integrator. |
| `Direction.RunAppend` | src/main.cpp:154-156 | Pulses are processed strictly in order, one at a time. Processing `a` and then `b` equals processing `a + b`. |
| `Direction.RunBounds` | src/main.cpp:78-105 | After n pulses the count differs from its start by at most n in either direction. |
| `Direction.RunPayingOut` | src/main.cpp:101-102 | N falling edges with DOWN alone or in free fall add exactly N. From 0 they give N. |
| `Direction.RunHauling` | src/main.cpp:94-100 | N falling edges with UP alone take N off a non-negative count, stopping at 0. From 0 the count stays 0, however many there are. |
| `Direction.RunIgnored` | src/main.cpp:83-104 | Any number of rising edges, or of falling edges with both lines asserted, leave the count unchanged, whatever the UP/DOWN levels and the count. |
| `ChainCounter.ChainAccumulator.constructor` | src/main.cpp:76 | The integrator starts with the given multiplier and start value and an empty pulse history. With multiplier 1 and a non-negative start it satisfies the counter invariant. |
| `ChainCounter.ChainAccumulator.Get` | src/main.cpp:95 | Returns the current total `count`, which the classifier compares with 0 for its clamp. For the chain counter this is the start value run through every pulse seen so far, and it is never negative. |
| `ChainCounter.ChainAccumulator.Accumulate` | src/main.cpp:156 | The total grows by the unit times the multiplier. No clamping is done here. |
| `ChainCounter.ChainAccumulator.OnPulse` | src/main.cpp:154-156 | A pulse is classified against the current total, and the unit is added. The new count is `Step` of the old count. The pulse is appended to the history. The invariant (count = `Run` of the history from the start value) is kept, and the count is never negative. |
| `ChainCounter.NewChainCounter` | src/main.cpp:76 | The chain counter is a fresh integrator with multiplier 1, count 0 and no pulses, and it satisfies the counter invariant. |
| `ChainCounter.UpButtonConsumer` | src/main.cpp:190-195 | For every button level, including a press (1), the count is unchanged. |

## Left out

- Edge detection and pin set-up (`pinMode`, `DigitalInputChange`,
  src/main.cpp:68-72, 170-171, 245-246): hardware polling. The model starts
  from the debounced transition.
- Debouncing (`Debounce`, `DebounceInt`, src/main.cpp:73-74, 180-181,
  255-256): time- and scheduler-driven library code whose logic is not part
  of this model.
- The `Linear` conversion of the count to metres (src/main.cpp:122-123) and
  the heading conversion (src/main.cpp:335): floating-point arithmetic in a
  library class.
- The scope calculator (src/main.cpp:305-310): float division by a depth read
  asynchronously from the network.
- Signal K outputs, metadata, button-state text and the constant test feeds
  (src/main.cpp:143-150, 223-240, 258-277, 285-338): telemetry publishing and
  test scaffolding.
- Serial debug prints inside the classifier (src/main.cpp:81, 87-92): output
  only, with no effect on the unit.
- The commented-out `directionSenseFunction` (src/main.cpp:107-120): dead code.
- App set-up, WiFi and the `loop()`/`app.tick()` scheduler
  (src/main.cpp:53-65, 346): framework wiring. Pulses reach the model one at a
  time and in order, as the single-threaded scheduler delivers them.
- The integrator's own `reset()`: it is never called, because its call sites
  (src/main.cpp:193, and the example at 208-212) are all commented out. The
  integrator library's internals are not part of this model. Only the running
  sum with multiplier and start value is modelled.
- ChainCounter.ChainAccumulator.Accumulate: the count is an unbounded
  integer, while the source's `int` is 32 bits wide. Overflow past
  2147483647 is not modelled. `Direction.RunBounds` shows that this needs
  more than 2147483647 counted pulses from a start of 0.
