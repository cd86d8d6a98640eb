/**
 The shared memory peak: threads raise it with a weak compare-exchange loop, in any
 interleaving and with any spurious failures, and no sample is lost.
 */
module PeakTracker {
  type ThreadId = nat

  /** Where a thread is in `update_peak`. */
  datatype Phase =
    | Idle
    | Sampled(current: nat)                // memory usage read
    | Looping(current: nat, seen: nat)     // `seen` is its last view of the shared peak
    | Done(current: nat)

  datatype System = System(initial: nat, peak: nat, threads: map<ThreadId, Phase>)

  datatype Step =
    | Sample(tid: ThreadId, current: nat)
    | Load(tid: ThreadId)
    | Leave(tid: ThreadId)                  // the loop test fails
    | Exchange(tid: ThreadId)               // the exchange succeeds
    | Refuse(tid: ThreadId)                 // it fails, for a changed peak or spuriously

  predicate Init(s: System) {
    s.peak == s.initial && forall i | i in s.threads :: s.threads[i].Idle?
  }

  predicate Enabled(s: System, e: Step) {
    && e.tid in s.threads
    && var p := s.threads[e.tid];
       match e
       case Sample(_, _) => p.Idle?
       case Load(_) => p.Sampled?
       case Leave(_) => p.Looping? && p.current <= p.seen
       case Exchange(_) => p.Looping? && p.current > p.seen && s.peak == p.seen
       case Refuse(_) => p.Looping? && p.current > p.seen
  }

  function Next(s: System, e: Step): System
    requires Enabled(s, e)
  {
    var p := s.threads[e.tid];
    match e
    case Sample(i, current) => s.(threads := s.threads[i := Sampled(current)])
    case Load(i) => s.(threads := s.threads[i := Looping(p.current, s.peak)])
    case Leave(i) => s.(threads := s.threads[i := Done(p.current)])
    case Exchange(i) => s.(peak := p.current, threads := s.threads[i := Done(p.current)])
    case Refuse(i) => s.(threads := s.threads[i := Looping(p.current, s.peak)])
  }

  /** The samples taken so far. */
  function Samples(s: System): set<nat> {
    set i | i in s.threads && !s.threads[i].Idle? :: s.threads[i].current
  }

  ghost predicate Inv(s: System) {
    && s.initial <= s.peak
    && (s.peak == s.initial || s.peak in Samples(s))
    && forall i | i in s.threads ::
         match s.threads[i]
         case Looping(_, seen) => seen <= s.peak
         case Done(current) => current <= s.peak
         case _ => true
  }

  ghost predicate IsRun(states: seq<System>, steps: seq<Step>) {
    && |states| == |steps| + 1 && Init(states[0])
    && forall k: nat | k < |steps| :: StepAt(states, steps, k)
  }

  ghost predicate StepAt(states: seq<System>, steps: seq<Step>, k: nat)
    requires k < |steps| && |states| == |steps| + 1
  {
    Enabled(states[k], steps[k]) && states[k + 1] == Next(states[k], steps[k])
  }

  lemma SamplesGrow(s: System, e: Step)
    requires Enabled(s, e)
    ensures Samples(s) <= Samples(Next(s, e))
  {
    var s' := Next(s, e);
    forall x | x in Samples(s) ensures x in Samples(s') {
      var i :| i in s.threads && !s.threads[i].Idle? && s.threads[i].current == x;
      assert i in s'.threads && !s'.threads[i].Idle? && s'.threads[i].current == x;
    }
  }

  lemma InvStep(s: System, e: Step)
    requires Inv(s) && Enabled(s, e)
    ensures Inv(Next(s, e)) && s.peak <= Next(s, e).peak && Next(s, e).initial == s.initial
  {
    SamplesGrow(s, e);
    var s' := Next(s, e);
    if e.Exchange? {
      assert s'.threads[e.tid].current == s'.peak;
    }
  }

  lemma {:induction false} InvHolds(states: seq<System>, steps: seq<Step>, k: nat)
    requires IsRun(states, steps) && k <= |steps|
    ensures Inv(states[k]) && states[k].initial == states[0].initial
  {
    if k > 0 {
      InvHolds(states, steps, k - 1);
      assert StepAt(states, steps, k - 1);
      InvStep(states[k - 1], steps[k - 1]);
    }
  }

  /** The peak never decreases. */
  lemma {:induction false} PeakNeverFalls(states: seq<System>, steps: seq<Step>, j: nat, k: nat)
    requires IsRun(states, steps) && j <= k <= |steps|
    ensures states[j].peak <= states[k].peak
  {
    if j < k {
      PeakNeverFalls(states, steps, j, k - 1);
      InvHolds(states, steps, k - 1);
      assert StepAt(states, steps, k - 1);
      InvStep(states[k - 1], steps[k - 1]);
    }
  }

  /**
   No update is lost: at every moment the peak is the initial value or a sample, at
   least the initial value, and at least the sample of every finished thread.
   */
  lemma NoUpdateLost(states: seq<System>, steps: seq<Step>, k: nat)
    requires IsRun(states, steps) && k <= |steps|
    ensures var s := states[k];
            && states[0].initial <= s.peak && (s.peak == states[0].initial || s.peak in Samples(s))
            && forall i | i in s.threads && s.threads[i].Done? :: s.threads[i].current <= s.peak
  {
    InvHolds(states, steps, k);
    var s := states[k];
    forall i | i in s.threads && s.threads[i].Done? ensures s.threads[i].current <= s.peak {
      assert match s.threads[i] case Done(current) => current <= s.peak case _ => true;
    }
  }

  /** When every started thread is done, the peak is the maximum of the initial value and the samples. */
  lemma FinalPeakIsMaximum(states: seq<System>, steps: seq<Step>, k: nat)
    requires IsRun(states, steps) && k <= |steps|
    requires forall i | i in states[k].threads :: states[k].threads[i].Idle? || states[k].threads[i].Done?
    ensures var all := Samples(states[k]) + {states[0].initial};
            states[k].peak in all && forall x | x in all :: x <= states[k].peak
  {
    NoUpdateLost(states, steps, k);
    var s := states[k];
    forall x | x in Samples(s) ensures x <= s.peak {
      var i :| i in s.threads && !s.threads[i].Idle? && s.threads[i].current == x;
      assert s.threads[i].Done?;
    }
  }

  /** The monitor without other threads: the loop itself, with spurious failures. */
  class MemoryMonitor {
    const initialUsage: nat
    var peakUsage: nat

    constructor (initial: nat)
      ensures initialUsage == initial && peakUsage == initial
    {
      initialUsage, peakUsage := initial, initial;
    }

    method UpdatePeak(current: nat, spuriousFailures: nat)
      modifies this`peakUsage
      ensures peakUsage == if current > old(peakUsage) then current else old(peakUsage)
    {
      var peak := peakUsage;
      var failures := spuriousFailures;
      while current > peak
        invariant peak == peakUsage == old(peakUsage)
        decreases failures
      {
        if failures == 0 {
          peakUsage := current;
          break;
        }
        failures, peak := failures - 1, peakUsage;
      }
    }

    function PeakMemoryIncrease(): (r: nat)
      reads this
      ensures peakUsage >= initialUsage ==> initialUsage + r == peakUsage
      ensures peakUsage < initialUsage ==> r == 0
    {
      if peakUsage >= initialUsage then peakUsage - initialUsage else 0
    }
  }
}
