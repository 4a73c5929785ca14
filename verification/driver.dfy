/** A camera driven by a sequence of calls, as an input handler or an
    animation loop drives it, and the invariants the gate and the history
    keep over any such sequence. */
module Driver {
  import opened Options
  import opened States
  import opened Cameras

  /** One call on the camera's mutating surface. */
  datatype Call = Set(p: Partial) | TurnOn | TurnOff

  function Apply(c: Camera, call: Call): Camera {
    match call
    case Set(p) => SetState(c, p)
    case TurnOn => Enable(c)
    case TurnOff => Disable(c)
  }

  /** The camera after the calls, first to last. */
  function Run(c: Camera, calls: seq<Call>): Camera
    decreases |calls|
  {
    if |calls| == 0 then c else Run(Apply(c, calls[0]), calls[1..])
  }

  predicate NoSets(calls: seq<Call>) {
    forall i :: 0 <= i < |calls| ==> !calls[i].Set?
  }

  predicate OnlySets(calls: seq<Call>) {
    forall i :: 0 <= i < |calls| ==> calls[i].Set?
  }

  /** Every ratio the calls give is positive. */
  predicate PositiveRatios(calls: seq<Call>) {
    forall i :: 0 <= i < |calls| && calls[i].Set? && calls[i].p.ratio.Some? ==> calls[i].p.ratio.value > 0.0
  }

  /** Running two sequences is running the first, then the second. */
  lemma {:induction false} RunConcat(c: Camera, a: seq<Call>, b: seq<Call>)
    ensures Run(c, a + b) == Run(Run(c, a), b)
    decreases |a|
  {
    if |a| == 0 {
      assert a + b == b;
    } else {
      assert (a + b)[0] == a[0];
      assert (a + b)[1..] == a[1..] + b;
      RunConcat(Apply(c, a[0]), a[1..], b);
    }
  }

  /** Only `setState` changes the states: enabling and disabling leave both
      the current and the previous state as they were. */
  lemma {:induction false} OnlySetStateMutates(c: Camera, calls: seq<Call>)
    requires NoSets(calls)
    ensures Run(c, calls).state == c.state
    ensures Run(c, calls).previous == c.previous
    decreases |calls|
  {
    if |calls| > 0 {
      assert !calls[0].Set?;
      assert NoSets(calls[1..]) by {
        forall i | 0 <= i < |calls[1..]|
          ensures !calls[1..][i].Set?
        {
          assert calls[1..][i] == calls[i + 1];
        }
      }
      OnlySetStateMutates(Apply(c, calls[0]), calls[1..]);
    }
  }

  /** A disabled camera is left entirely unchanged by any number of
      `setState` calls. */
  lemma {:induction false} DisabledIgnoresSets(c: Camera, calls: seq<Call>)
    requires !c.enabled
    requires OnlySets(calls)
    ensures Run(c, calls) == c
    decreases |calls|
  {
    if |calls| > 0 {
      assert calls[0].Set?;
      assert OnlySets(calls[1..]) by {
        forall i | 0 <= i < |calls[1..]|
          ensures calls[1..][i].Set?
        {
          assert calls[1..][i] == calls[i + 1];
        }
      }
      DisabledIgnoresSets(Apply(c, calls[0]), calls[1..]);
    }
  }

  /** After any history, an accepted `setState` records as the previous
      state exactly the state the history had left. */
  lemma PreviousIsStateBeforeLastSet(c: Camera, calls: seq<Call>, p: Partial)
    requires Run(c, calls).enabled
    ensures Run(c, calls + [Set(p)]).previous == Run(c, calls).state
    ensures Agrees(p, Run(c, calls + [Set(p)]).state)
  {
    RunConcat(c, calls, [Set(p)]);
  }

  /** Disabling freezes the state: whatever is set afterwards, the state is
      the one the camera had when it was disabled. */
  lemma FrozenAfterDisable(c: Camera, calls: seq<Call>, later: seq<Call>)
    requires OnlySets(later)
    ensures Run(c, calls + [TurnOff] + later) == Disable(Run(c, calls))
  {
    RunConcat(c, calls + [TurnOff], later);
    RunConcat(c, calls, [TurnOff]);
    DisabledIgnoresSets(Disable(Run(c, calls)), later);
  }

  /** Callers that only ever give positive ratios keep both states' ratios
      positive, which the viewport transforms need. */
  lemma {:induction false} RunKeepsRatioPositive(c: Camera, calls: seq<Call>)
    requires c.state.ratio > 0.0 && c.previous.ratio > 0.0
    requires PositiveRatios(calls)
    ensures Run(c, calls).state.ratio > 0.0
    ensures Run(c, calls).previous.ratio > 0.0
    decreases |calls|
  {
    if |calls| > 0 {
      var c' := Apply(c, calls[0]);
      assert c'.state.ratio > 0.0 && c'.previous.ratio > 0.0 by {
        assert 0 < |calls|;
      }
      assert PositiveRatios(calls[1..]) by {
        forall i | 0 <= i < |calls[1..]| && calls[1..][i].Set? && calls[1..][i].p.ratio.Some?
          ensures calls[1..][i].p.ratio.value > 0.0
        {
          assert calls[1..][i] == calls[i + 1];
        }
      }
      RunKeepsRatioPositive(c', calls[1..]);
    }
  }
}
