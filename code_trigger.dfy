/**
  CodeTrigger: an igniter that code fires by calling Trigger; the next frame
  update runs the attached actions once and clears the latch.
*/
module CodeTriggers {

  /** The latch and the number of times ExecuteTrigger has run. */
  datatype LatchState = LatchState(triggered: bool, executions: nat)

  datatype Call = TriggerCall | UpdateCall

  /** One call's effect on the latch. */
  function Step(s: LatchState, c: Call): (r: LatchState)
    ensures c == TriggerCall ==> r.triggered && r.executions == s.executions
    ensures c == UpdateCall ==> !r.triggered && r.executions == s.executions + (if s.triggered then 1 else 0)
  {
    match c
    case TriggerCall => s.(triggered := true)
    case UpdateCall => if s.triggered then LatchState(false, s.executions + 1) else s
  }

  /** A run of calls from left to right. */
  function Run(s: LatchState, calls: seq<Call>): LatchState
    decreases |calls|
  {
    if calls == [] then s else Run(Step(s, calls[0]), calls[1..])
  }

  /** Calling Trigger again before the next Update changes nothing. */
  lemma TriggerIsIdempotent(s: LatchState)
    ensures Step(Step(s, TriggerCall), TriggerCall) == Step(s, TriggerCall)
  {
  }

  /** A run made only of Trigger calls. */
  function Triggers(k: nat): (r: seq<Call>)
    ensures |r| == k && forall i :: 0 <= i < k ==> r[i] == TriggerCall
  {
    if k == 0 then [] else [TriggerCall] + Triggers(k - 1)
  }

  lemma {:induction false} TriggersOnlyLatch(s: LatchState, k: nat)
    ensures Run(s, Triggers(k)) == if k == 0 then s else s.(triggered := true)
    decreases k
  {
    if k > 0 {
      assert Triggers(k)[1..] == Triggers(k - 1);
      TriggersOnlyLatch(Step(s, TriggerCall), k - 1);
    }
  }

  lemma {:induction false} RunAppend(s: LatchState, a: seq<Call>, b: seq<Call>)
    ensures Run(s, a + b) == Run(Run(s, a), b)
    decreases |a|
  {
    if a == [] {
      assert a + b == b;
    } else {
      assert (a + b)[0] == a[0] && (a + b)[1..] == a[1..] + b;
      RunAppend(Step(s, a[0]), a[1..], b);
    }
  }

  /** Any number (at least one) of Trigger calls followed by one Update
      executes the actions exactly once and leaves the latch clear; with no
      Trigger call and a clear latch the Update does nothing. */
  lemma TriggersThenUpdateExecuteOnce(s: LatchState, k: nat)
    requires !s.triggered
    ensures var r := Run(s, Triggers(k) + [UpdateCall]);
            && !r.triggered
            && r.executions == s.executions + (if k == 0 then 0 else 1)
  {
    RunAppend(s, Triggers(k), [UpdateCall]);
    TriggersOnlyLatch(s, k);
  }

  /** The number of Update calls in a run. */
  function Updates(calls: seq<Call>): nat
    decreases |calls|
  {
    if calls == [] then 0 else (if calls[0] == UpdateCall then 1 else 0) + Updates(calls[1..])
  }

  /** The actions run at most once per Update call. */
  lemma {:induction false} AtMostOncePerUpdate(s: LatchState, calls: seq<Call>)
    ensures s.executions <= Run(s, calls).executions <= s.executions + Updates(calls)
    decreases |calls|
  {
    if calls != [] {
      AtMostOncePerUpdate(Step(s, calls[0]), calls[1..]);
    }
  }

  class CodeTrigger {
    var triggered: bool
    /** How many times ExecuteTrigger(gameObject) has run. */
    var executions: nat

    function State(): LatchState
      reads this
    {
      LatchState(triggered, executions)
    }

    constructor ()
      ensures !triggered && executions == 0
    {
      triggered := false;
      executions := 0;
    }

    /** Update: an armed latch runs the actions once and is cleared. */
    method Update()
      modifies this
      ensures State() == Step(old(State()), UpdateCall)
    {
      if triggered {
        executions := executions + 1;
        triggered := false;
      }
    }

    /** Trigger: arm the latch. */
    method Trigger()
      modifies this
      ensures State() == Step(old(State()), TriggerCall)
    {
      triggered := true;
    }
  }
}
