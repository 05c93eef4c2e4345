/** The chain counter: an integrating accumulator fed by the direction
    classifier, and the UP-button consumer wired to it. */
module ChainCounter {
  import opened Direction

  /** A running integer total: every unit it receives is multiplied by `k`
      and added to `count`. The constructor and `Accumulate` take any
      multiplier, as the integrator does; the sketch builds the chain counter
      with k = 1 and a start value of 0, and the counter invariant `Valid`
      (and so `OnPulse`, which keeps it) is stated for that multiplier only,
      since `Step` and `Run` add the classified unit unscaled. */
  class ChainAccumulator {
    const k: int
    var count: int
    // the start value and the pulses classified and accumulated since then
    ghost const start: int
    ghost var pulses: seq<Pulse>

    /** The chain counter's invariant: a unit multiplier, a non-negative
        start, and a count that is the start value run through every pulse
        seen so far. */
    ghost predicate Valid()
      reads this
    {
      k == 1 && start >= 0 && count == Run(pulses, start)
    }

    constructor (k: int, value: int)
      ensures this.k == k && count == value && start == value && pulses == []
      ensures k == 1 && value >= 0 ==> Valid()
    {
      this.k := k;
      count := value;
      start := value;
      pulses := [];
    }

    /** The current total, read by the classifier for its clamp. */
    function Get(): (total: int)
      reads this
      ensures total == count
      ensures Valid() ==> total == Run(pulses, start) && total >= 0
    {
      assert start >= 0 ==> Run(pulses, start) >= 0 by {
        if start >= 0 {
          RunNeverNegative(pulses, start);
        }
      }
      count
    }

    /** Adds one scaled unit to the total, with no clamping of its own. */
    method Accumulate(unit: int)
      modifies this`count
      ensures count == old(count) + unit * k
    {
      count := count + unit * k;
    }

    /** One debounced gypsy transition going through the classifier and
        into the accumulator: the classifier reads the current total, and
        its unit is then added to it. */
    method OnPulse(p: Pulse)
      requires Valid()
      modifies this`count, this`pulses
      ensures Valid()
      ensures pulses == old(pulses) + [p]
      ensures count == Step(p, old(count))
      ensures count >= 0
    {
      var unit := Classify(p.level, p.up, p.down, Get());
      Accumulate(unit);
      RunAppend(pulses, [p], start);
      pulses := pulses + [p];
      RunNeverNegative(pulses, start);
    }
  }

  /** The chain counter as the sketch builds it: multiplier 1, start 0. */
  method NewChainCounter() returns (acc: ChainAccumulator)
    ensures fresh(acc) && acc.Valid()
    ensures acc.count == 0 && acc.pulses == []
  {
    acc := new ChainAccumulator(1, 0);
  }

  /** The consumer of debounced UP-button levels. It reacts only to a press
      (level 1), and its reset of the counter is disabled, so no level
      changes the count. */
  method UpButtonConsumer(acc: ChainAccumulator, input: int)
    ensures acc.count == old(acc.count)
  {
    if input == 1 {
      // the counter reset is switched off here
    }
  }

  /** A client of the counter: paying out, hauling in and the clamp at zero. */
  method CountingScenarios()
  {
    var acc := NewChainCounter();
    acc.OnPulse(Pulse(true, false, true));
    assert acc.count == 0;
    acc.OnPulse(Pulse(false, false, true));
    assert acc.count == 1;
    acc.OnPulse(Pulse(false, false, false));
    acc.OnPulse(Pulse(false, false, false));
    acc.OnPulse(Pulse(false, false, true));
    acc.OnPulse(Pulse(false, false, true));
    assert acc.count == 5;
    acc.OnPulse(Pulse(false, true, false));
    assert acc.count == 4;
    acc.OnPulse(Pulse(false, true, true));
    assert acc.count == 4;
    UpButtonConsumer(acc, 1);
    assert acc.count == 4;

    var other := NewChainCounter();
    other.OnPulse(Pulse(false, true, false));
    assert other.count == 0;
  }
}
