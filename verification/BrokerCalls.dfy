/**
 The broker under concurrent calls. The source checks the running flag under one lock,
 releases it, and only then touches the subscriptions, so calls interleave between those
 sections. Here every section is a step, and a run is any interleaving of any calls.
 */
module BrokerCalls {
  import opened Brokers

  type CallId = nat

  /** What a call still has to do. */
  datatype Phase =
    | Ready
    | Clearing                                   // `stop` has cleared the flag
    | Sending(topic: Topic, message: Payload)    // `publish` saw the broker running
    | Counting                                   // `publish` has sent
    | Registering(topic: Topic)                  // `subscribe` saw the broker running
    | Over

  datatype Shared = Shared(b: BrokerState, calls: map<CallId, Phase>)

  datatype Step =
    | SetFlag(id: CallId)
    | ClearFlag(id: CallId)
    | ClearMap(id: CallId)
    | CheckPublish(id: CallId, topic: Topic, message: Payload)
    | Send(id: CallId)
    | Count(id: CallId)
    | CheckSubscribe(id: CallId, topic: Topic)
    | Register(id: CallId)

  predicate Init(s: Shared) {
    s.b == Initial() && forall i | i in s.calls :: s.calls[i].Ready?
  }

  predicate Enabled(s: Shared, e: Step) {
    && e.id in s.calls
    && match e
       case ClearMap(i) => s.calls[i].Clearing?
       case Send(i) => s.calls[i].Sending?
       case Count(i) => s.calls[i].Counting?
       case Register(i) => s.calls[i].Registering?
       case _ => s.calls[e.id].Ready?
  }

  /** The broker's fields after the step. */
  ghost function Fields(s: Shared, e: Step): BrokerState
    requires Valid(s.b) && Enabled(s, e)
  {
    match e
    case SetFlag(_) => s.b.(running := true)
    case ClearFlag(_) => s.b.(running := false)
    case ClearMap(_) => s.b.(subscriptions := map[])
    case Send(i) =>
      s.b.(channels := SendAll(s.b.channels, Subscribers(s.b, s.calls[i].topic), s.calls[i].message))
    case Count(_) => s.b.(counter := s.b.counter + 1)
    case Register(i) =>
      var t := s.calls[i].topic;
      s.b.(channels := s.b.channels + [[]],
           subscriptions := s.b.subscriptions[t := Subscribers(s.b, t) + [|s.b.channels|]])
    case _ => s.b
  }

  function NewPhase(s: Shared, e: Step): Phase {
    match e
    case ClearFlag(_) => if s.b.running then Clearing else Over
    case CheckPublish(_, t, m) => if s.b.running then Sending(t, m) else Over
    case Send(_) => Counting
    case CheckSubscribe(_, t) => if s.b.running then Registering(t) else Over
    case _ => Over
  }

  ghost function Next(s: Shared, e: Step): Shared
    requires Valid(s.b) && Enabled(s, e)
  {
    Shared(Fields(s, e), s.calls[e.id := NewPhase(s, e)])
  }

  datatype Run = Run(states: seq<Shared>, steps: seq<Step>)

  ghost predicate StepAt(r: Run, k: nat)
    requires k < |r.steps| && |r.states| == |r.steps| + 1
  {
    && Valid(r.states[k].b) && Enabled(r.states[k], r.steps[k])
    && r.states[k + 1] == Next(r.states[k], r.steps[k])
  }

  ghost predicate IsRun(r: Run) {
    && |r.states| == |r.steps| + 1 && Init(r.states[0])
    && forall k: nat | k < |r.steps| :: StepAt(r, k)
  }

  // ----- delivery -----

  lemma FieldsRegistered(s: Shared, e: Step)
    requires Valid(s.b) && Registered(s.b) && Enabled(s, e)
    ensures Valid(Fields(s, e)) && Registered(Fields(s, e))
  {
    hide SendAll;
  }

  lemma {:induction false} RegisteredHolds(r: Run, k: nat)
    requires IsRun(r) && k <= |r.steps|
    ensures Valid(r.states[k].b) && Registered(r.states[k].b)
  {
    hide Fields; hide Valid; hide Registered;
    if k > 0 {
      RegisteredHolds(r, k - 1);
      assert StepAt(r, k - 1);
      FieldsRegistered(r.states[k - 1], r.steps[k - 1]);
    } else {
      InitRegistered(r.states[0]);
    }
  }

  lemma InitRegistered(s: Shared)
    requires Init(s)
    ensures Valid(s.b) && Registered(s.b)
  {
  }

  /** Channel `ch` is listed under topic `t` while it is live, and nowhere else. */
  ghost predicate Listed(b: BrokerState, ch: ChannelId, t: Topic, live: bool) {
    && ch < |b.channels| && (live ==> ch in Subscribers(b, t))
    && forall u | u != t || !live :: ch !in Subscribers(b, u)
  }

  /** The step hands a message to the subscribers of topic `t`. */
  predicate SendsTo(s: Shared, e: Step, t: Topic) {
    e.Send? && e.id in s.calls && s.calls[e.id].Sending? && s.calls[e.id].topic == t
  }

  lemma ListedStep(s: Shared, e: Step, ch: ChannelId, t: Topic, live: bool)
    requires Valid(s.b) && Registered(s.b) && Enabled(s, e) && Listed(s.b, ch, t, live)
    ensures Listed(Fields(s, e), ch, t, live && !e.ClearMap?)
    ensures Fields(s, e).channels[ch] ==
              s.b.channels[ch] + (if live && SendsTo(s, e, t) then [s.calls[e.id].message] else [])
  {
    hide SendAll;
    if e.Send? {
      SendAllAt(s.b.channels, Subscribers(s.b, s.calls[e.id].topic), s.calls[e.id].message, ch);
    }
    forall u | u != t || !(live && !e.ClearMap?) ensures ch !in Subscribers(Fields(s, e), u) {
      assert u != t || !live ==> ch !in Subscribers(s.b, u);
    }
  }

  /** No clearing of the subscriptions from step `i` up to step `k`. */
  ghost predicate NoClear(r: Run, i: nat, k: nat) {
    forall j: nat | i <= j < k && j < |r.steps| :: !r.steps[j].ClearMap?
  }

  /** The messages sent to topic `t` from step `i` up to step `k`, until the subscriptions are cleared, in order. */
  ghost function Received(r: Run, i: nat, k: nat, t: Topic): seq<Payload>
    requires IsRun(r) && k <= |r.steps|
    decreases k
  {
    if k <= i then []
    else
      var s, e := r.states[k - 1], r.steps[k - 1];
      Received(r, i, k - 1, t)
      + (if NoClear(r, i, k - 1) && SendsTo(s, e, t) then [s.calls[e.id].message] else [])
  }

  ghost predicate ChannelOk(r: Run, i: nat, k: nat, ch: ChannelId, t: Topic)
    requires IsRun(r) && k <= |r.steps|
  {
    var b := r.states[k].b;
    Listed(b, ch, t, NoClear(r, i, k)) && b.channels[ch] == Received(r, i, k, t)
  }

  lemma JustRegistered(s: Shared, e: Step)
    requires Valid(s.b) && Enabled(s, e) && e.Register?
    ensures Listed(Fields(s, e), |s.b.channels|, s.calls[e.id].topic, true)
    ensures Fields(s, e).channels[|s.b.channels|] == []
  {
    assert forall u :: |s.b.channels| !in Subscribers(s.b, u);
  }

  lemma {:induction false} ChannelHolds(r: Run, i: nat, k: nat)
    requires IsRun(r) && i < k <= |r.steps| && r.steps[i].Register? && r.steps[i].id in r.states[i].calls
    requires r.states[i].calls[r.steps[i].id].Registering?
    ensures ChannelOk(r, i + 1, k, |r.states[i].b.channels|, r.states[i].calls[r.steps[i].id].topic)
  {
    hide Fields; hide Valid; hide Registered; hide Listed; hide Init; hide SendsTo;
    var ch, t := |r.states[i].b.channels|, r.states[i].calls[r.steps[i].id].topic;
    if k == i + 1 {
      assert StepAt(r, i);
      JustRegistered(r.states[i], r.steps[i]);
      assert NoClear(r, i + 1, k) && Received(r, i + 1, k, t) == [];
    } else {
      ChannelHolds(r, i, k - 1);
      assert StepAt(r, k - 1);
      RegisteredHolds(r, k - 1);
      ListedStep(r.states[k - 1], r.steps[k - 1], ch, t, NoClear(r, i + 1, k - 1));
      assert NoClear(r, i + 1, k) <==> NoClear(r, i + 1, k - 1) && !r.steps[k - 1].ClearMap?;
    }
  }

  /**
   Delivery under any interleaving: the channel registered at step `i` holds, at every later
   moment, exactly the messages sent to its topic since, in order, until a `stop` clears the
   subscriptions. It is not the flag that ends a subscription, but the clearing after it.
   */
  lemma InterleavedDelivery(r: Run, i: nat, k: nat)
    requires IsRun(r) && i < k <= |r.steps| && r.steps[i].Register?
    ensures r.steps[i].id in r.states[i].calls && r.states[i].calls[r.steps[i].id].Registering?
    ensures |r.states[i].b.channels| < |r.states[k].b.channels|
    ensures r.states[k].b.channels[|r.states[i].b.channels|] ==
              Received(r, i + 1, k, r.states[i].calls[r.steps[i].id].topic)
  {
    hide Next; hide Init;
    assert StepAt(r, i);
    ChannelHolds(r, i, k);
  }

  // ----- the running flag -----

  /** The last change of the flag, among these steps, set it. */
  function FlagUp(steps: seq<Step>): bool {
    if steps == [] then false
    else match steps[|steps| - 1]
         case SetFlag(_) => true
         case ClearFlag(_) => false
         case _ => FlagUp(steps[..|steps| - 1])
  }

  lemma {:induction false} RunningIffFlagUp(r: Run, k: nat)
    requires IsRun(r) && k <= |r.steps|
    ensures r.states[k].b.running <==> FlagUp(r.steps[..k])
  {
    hide SendAll; hide Valid;
    if k > 0 {
      assert StepAt(r, k - 1);
      RunningIffFlagUp(r, k - 1);
      assert r.steps[..k][..k - 1] == r.steps[..k - 1];
    }
  }

  /**
   A call goes on after its check exactly when the flag is up at that moment: a publish to
   send its message, a subscribe to register, a stop to clear; otherwise it is over.
   */
  lemma AdmittedIffFlagUp(r: Run, k: nat)
    requires IsRun(r) && k < |r.steps|
    ensures var e, up, calls := r.steps[k], FlagUp(r.steps[..k]), r.states[k + 1].calls;
            && e.id in calls
            && (e.CheckPublish? ==> calls[e.id] == if up then Sending(e.topic, e.message) else Over)
            && (e.CheckSubscribe? ==> calls[e.id] == if up then Registering(e.topic) else Over)
            && (e.ClearFlag? ==> calls[e.id] == if up then Clearing else Over)
            && (e.SetFlag? || e.ClearMap? || e.Count? || e.Register? ==> calls[e.id].Over?)
            && (e.Send? ==> calls[e.id].Counting?)
  {
    hide Fields; hide Valid; hide FlagUp;
    assert StepAt(r, k);
    RunningIffFlagUp(r, k);
  }

  /** The check that admitted a call: its kind and arguments are those the call still has. */
  ghost predicate AdmittedAt(r: Run, j: nat, id: CallId, phase: Phase) {
    && j < |r.steps| && r.steps[j].id == id && FlagUp(r.steps[..j])
    && match phase
       case Sending(t, m) => r.steps[j] == CheckPublish(id, t, m)
       case Registering(t) => r.steps[j] == CheckSubscribe(id, t)
       case Clearing => r.steps[j] == ClearFlag(id)
       case _ => false
  }

  /** Whoever sends, registers or clears was admitted at an earlier step, with the flag up. */
  lemma {:induction false} ActsOnlyIfAdmitted(r: Run, k: nat, id: CallId) returns (j: nat)
    requires IsRun(r) && k <= |r.steps| && id in r.states[k].calls
    requires var p := r.states[k].calls[id]; p.Sending? || p.Registering? || p.Clearing?
    ensures j < k && AdmittedAt(r, j, id, r.states[k].calls[id])
  {
    hide Fields; hide Valid; hide FlagUp;
    if k > 0 {
      assert StepAt(r, k - 1);
      if r.steps[k - 1].id == id {
        j := k - 1;
        AdmittedIffFlagUp(r, j);
      } else {
        j := ActsOnlyIfAdmitted(r, k - 1, id);
      }
    }
  }

  // ----- the counter -----

  ghost function AboutToCount(s: Shared): set<CallId> {
    set i | i in s.calls && s.calls[i].Counting?
  }

  function Sends(steps: seq<Step>): nat {
    if steps == [] then 0 else Sends(steps[..|steps| - 1]) + (if steps[|steps| - 1].Send? then 1 else 0)
  }

  lemma CountingStep(s: Shared, e: Step)
    requires Valid(s.b) && Enabled(s, e)
    ensures var s' := Next(s, e);
            s'.b.counter + |AboutToCount(s')| == s.b.counter + |AboutToCount(s)| + if e.Send? then 1 else 0
  {
    hide SendAll; hide Valid;
    var s' := Next(s, e);
    if e.Send? {
      assert AboutToCount(s') == AboutToCount(s) + {e.id};
    } else if e.Count? {
      assert AboutToCount(s') == AboutToCount(s) - {e.id};
    } else {
      assert AboutToCount(s') == AboutToCount(s);
    }
  }

  /** No publish is lost or counted twice: the counter lags the sends by the calls about to count. */
  lemma {:induction false} InterleavedCounter(r: Run, k: nat)
    requires IsRun(r) && k <= |r.steps|
    ensures r.states[k].b.counter + |AboutToCount(r.states[k])| == Sends(r.steps[..k])
  {
    hide Next; hide Valid; hide Enabled;
    if k == 0 {
      assert AboutToCount(r.states[0]) == {};
    } else {
      InterleavedCounter(r, k - 1);
      assert StepAt(r, k - 1);
      CountingStep(r.states[k - 1], r.steps[k - 1]);
      assert r.steps[..k][..k - 1] == r.steps[..k - 1];
    }
  }
}
