/** The gypsy direction classifier of the windlass chain counter, and the
    running count it produces when its units are summed from a start value.

    Each debounced transition of the gypsy switch arrives together with the
    levels of the UP and DOWN control lines sampled at that moment, and is
    turned into a signed unit: -1 (chain hauled in), 0 (not counted) or
    +1 (chain paid out). */
module Direction {

  /** One debounced gypsy transition: the new switch level (true for a
      rising edge, false for a falling edge) and the UP/DOWN control-line
      levels read when the transition is classified. */
  datatype Pulse = Pulse(level: bool, up: bool, down: bool)

  /** The direction unit for one gypsy transition, given the current count.
      Rising edges are not counted; on a falling edge, UP alone hauls in
      (but never below zero), DOWN alone or neither line pays out, and both
      lines together are ignored. */
  function Classify(level: bool, up: bool, down: bool, count: int): (u: int)
    ensures -1 <= u <= 1
    ensures level ==> u == 0
    ensures u == 1 <==> !level && !up
    ensures u == -1 <==> !level && up && !down && count > 0
    ensures count >= 0 ==> count + u >= 0
  {
    if level then 0
    else if up && !down then (if count > 0 then -1 else 0)
    else if down && !up then 1
    else if !(down || up) then 1
    else 0
  }

  /** A falling edge with UP asserted and DOWN released: the windlass is
      retrieving chain. */
  predicate IsHauling(p: Pulse) {
    !p.level && p.up && !p.down
  }

  /** A falling edge with UP released: the windlass is paying out under
      power (DOWN asserted) or the chain is in free fall (DOWN released). */
  predicate IsPayingOut(p: Pulse) {
    !p.level && !p.up
  }

  /** A transition that never moves the count: a rising edge, or a falling
      edge with both control lines asserted. */
  predicate IsIgnored(p: Pulse) {
    p.level || (p.up && p.down)
  }

  /** The count after one pulse has been classified and added to it. */
  function Step(p: Pulse, count: int): (r: int)
    ensures count - 1 <= r <= count + 1
    ensures count >= 0 ==> r >= 0
    ensures IsIgnored(p) ==> r == count
    ensures IsPayingOut(p) ==> r == count + 1
    ensures IsHauling(p) ==> r == (if count > 0 then count - 1 else count)
  {
    count + Classify(p.level, p.up, p.down, count)
  }

  /** The count after a sequence of pulses, in arrival order, starting from
      `count`. */
  function Run(ps: seq<Pulse>, count: int): int
    decreases |ps|
  {
    if ps == [] then count else Run(ps[1..], Step(ps[0], count))
  }

  /** Clamp safety: starting from a non-negative count, no sequence of
      pulses drives the count below zero. */
  lemma {:induction false} RunNeverNegative(ps: seq<Pulse>, count: int)
    requires count >= 0
    ensures Run(ps, count) >= 0
    decreases |ps|
  {
    if ps != [] {
      RunNeverNegative(ps[1..], Step(ps[0], count));
    }
  }

  /** Processing two batches of pulses one after the other is processing
      their concatenation. */
  lemma {:induction false} RunAppend(a: seq<Pulse>, b: seq<Pulse>, count: int)
    ensures Run(a + b, count) == Run(b, Run(a, count))
    decreases |a|
  {
    if a == [] {
      assert a + b == b;
    } else {
      assert (a + b)[0] == a[0];
      assert (a + b)[1..] == a[1..] + b;
      RunAppend(a[1..], b, Step(a[0], count));
    }
  }

  /** Each pulse moves the count by at most one, so n pulses move it by at
      most n in either direction. */
  lemma {:induction false} RunBounds(ps: seq<Pulse>, count: int)
    ensures count - |ps| <= Run(ps, count) <= count + |ps|
    decreases |ps|
  {
    if ps != [] {
      RunBounds(ps[1..], Step(ps[0], count));
    }
  }

  /** N falling edges paying out (DOWN alone, or free fall) add exactly N
      to the count. */
  lemma {:induction false} RunPayingOut(ps: seq<Pulse>, count: int)
    requires forall i :: 0 <= i < |ps| ==> IsPayingOut(ps[i])
    ensures Run(ps, count) == count + |ps|
    decreases |ps|
  {
    if ps != [] {
      assert IsPayingOut(ps[0]);
      RunPayingOut(ps[1..], count + 1);
    }
  }

  /** N falling edges hauling in (UP alone) take N off a non-negative count,
      stopping at zero: from zero the count stays at zero. */
  lemma {:induction false} RunHauling(ps: seq<Pulse>, count: int)
    requires count >= 0
    requires forall i :: 0 <= i < |ps| ==> IsHauling(ps[i])
    ensures Run(ps, count) == if count >= |ps| then count - |ps| else 0
    decreases |ps|
  {
    if ps != [] {
      assert IsHauling(ps[0]);
      RunHauling(ps[1..], if count > 0 then count - 1 else 0);
    }
  }

  /** Rising edges, and falling edges with both control lines asserted,
      never change the count, whatever their number. */
  lemma {:induction false} RunIgnored(ps: seq<Pulse>, count: int)
    requires forall i :: 0 <= i < |ps| ==> IsIgnored(ps[i])
    ensures Run(ps, count) == count
    decreases |ps|
  {
    if ps != [] {
      assert IsIgnored(ps[0]);
      RunIgnored(ps[1..], count);
    }
  }
}
