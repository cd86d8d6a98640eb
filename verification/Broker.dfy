/**
 The message broker: starting, stopping, publishing and subscribing, each as one atomic
 step. A channel is the sequence of messages sent to it.
 */
module Brokers {
  type Topic = nat
  type Payload = nat
  type ChannelId = nat

  datatype Reply<+T> = Ok(value: T) | NotRunning | AlreadyRunning

  datatype BrokerState = BrokerState(
    running: bool,
    subscriptions: map<Topic, seq<ChannelId>>,
    channels: seq<seq<Payload>>,
    counter: nat)

  datatype Event = Start | Stop | Publish(topic: Topic, message: Payload) | Subscribe(topic: Topic)

  function Subscribers(s: BrokerState, topic: Topic): seq<ChannelId> {
    if topic in s.subscriptions then s.subscriptions[topic] else []
  }

  /** Every registered channel exists. */
  ghost predicate Valid(s: BrokerState) {
    forall t, i | t in s.subscriptions && 0 <= i < |s.subscriptions[t]| :: s.subscriptions[t][i] < |s.channels|
  }

  /** Send the message to the channels, one after the other. */
  function SendAll(channels: seq<seq<Payload>>, targets: seq<ChannelId>, m: Payload): (r: seq<seq<Payload>>)
    requires forall i | 0 <= i < |targets| :: targets[i] < |channels|
    ensures |r| == |channels|
  {
    if targets == [] then channels
    else
      var sent := SendAll(channels, targets[..|targets| - 1], m);
      var last := targets[|targets| - 1];
      sent[last := sent[last] + [m]]
  }

  ghost function Next(s: BrokerState, e: Event): BrokerState
    requires Valid(s)
  {
    match e
    case Start => s.(running := true)
    case Stop => if s.running then s.(running := false, subscriptions := map[]) else s
    case Publish(t, m) =>
      if !s.running then s
      else s.(channels := SendAll(s.channels, Subscribers(s, t), m), counter := s.counter + 1)
    case Subscribe(t) =>
      if !s.running then s
      else s.(channels := s.channels + [[]],
              subscriptions := s.subscriptions[t := Subscribers(s, t) + [|s.channels|]])
  }

  lemma ValidStep(s: BrokerState, e: Event)
    requires Valid(s)
    ensures Valid(Next(s, e))
  {
    hide SendAll;
  }

  class MessageBroker {
    var running: bool
    var subscriptions: map<Topic, seq<ChannelId>>
    var channels: seq<seq<Payload>>
    var counter: nat

    ghost function State(): BrokerState
      reads this
    {
      BrokerState(running, subscriptions, channels, counter)
    }

    constructor ()
      ensures State() == Initial() && Valid(State())
    {
      running, subscriptions, channels, counter := false, map[], [], 0;
    }

    method StartBroker() returns (r: Reply<()>)
      requires Valid(State())
      modifies this`running
      ensures Valid(State()) && State() == Next(old(State()), Start)
      ensures r == if old(running) then AlreadyRunning else Ok(())
    {
      ValidStep(State(), Start);
      if running {
        return AlreadyRunning;
      }
      running := true;
      r := Ok(());
    }

    method StopBroker() returns (r: Reply<()>)
      requires Valid(State())
      modifies this
      ensures Valid(State()) && State() == Next(old(State()), Stop) && r == Ok(())
    {
      ValidStep(State(), Stop);
      if running {
        running := false;
        subscriptions := map[];
      }
      r := Ok(());
    }

    method PublishMessage(topic: Topic, message: Payload) returns (r: Reply<()>)
      requires Valid(State())
      modifies this
      ensures Valid(State()) && State() == Next(old(State()), Publish(topic, message))
      ensures r == if old(running) then Ok(()) else NotRunning
    {
      ValidStep(State(), Publish(topic, message));
      if !running {
        return NotRunning;
      }
      if topic in subscriptions {
        var senders := subscriptions[topic];
        for i := 0 to |senders|
          invariant running == old(running) && subscriptions == old(subscriptions) && counter == old(counter)
          invariant channels == SendAll(old(channels), senders[..i], message)
        {
          assert senders[..i + 1][..i] == senders[..i];
          channels := channels[senders[i] := channels[senders[i]] + [message]];
        }
        assert senders[..|senders|] == senders;
      }
      counter := counter + 1;
      r := Ok(());
    }

    method SubscribeTo(topic: Topic) returns (r: Reply<ChannelId>)
      requires Valid(State())
      modifies this
      ensures Valid(State()) && State() == Next(old(State()), Subscribe(topic))
      ensures r == if old(running) then Ok(|old(channels)|) else NotRunning
    {
      ValidStep(State(), Subscribe(topic));
      if !running {
        return NotRunning;
      }
      var channel := |channels|;
      channels := channels + [[]];
      var senders := if topic in subscriptions then subscriptions[topic] else [];
      subscriptions := subscriptions[topic := senders + [channel]];
      r := Ok(channel);
    }
  }

  // ----- runs -----

  function Initial(): BrokerState {
    BrokerState(false, map[], [], 0)
  }

  /** The state after the events. */
  ghost function After(es: seq<Event>): (s: BrokerState)
    ensures Valid(s) && Registered(s)
  {
    if es == [] then Initial()
    else
      var s := After(es[..|es| - 1]);
      var e := es[|es| - 1];
      RegisteredStep(s, e);
      Next(s, e)
  }

  /** A topic lists each of its channels once. */
  ghost predicate Registered(s: BrokerState) {
    forall t, i, j | t in s.subscriptions && 0 <= i < j < |s.subscriptions[t]| ::
      s.subscriptions[t][i] != s.subscriptions[t][j]
  }

  lemma RegisteredStep(s: BrokerState, e: Event)
    requires Valid(s) && Registered(s)
    ensures Valid(Next(s, e)) && Registered(Next(s, e))
  {
    hide SendAll;
  }

  /** A send reaches the channel once if it is a target and leaves it alone otherwise. */
  lemma {:induction false} SendAllAt(channels: seq<seq<Payload>>, targets: seq<ChannelId>, m: Payload, ch: ChannelId)
    requires forall i | 0 <= i < |targets| :: targets[i] < |channels|
    requires forall i, j | 0 <= i < j < |targets| :: targets[i] != targets[j]
    requires ch < |channels|
    ensures SendAll(channels, targets, m)[ch] == if ch in targets then channels[ch] + [m] else channels[ch]
  {
    if targets != [] {
      var front, last := targets[..|targets| - 1], targets[|targets| - 1];
      SendAllAt(channels, front, m, ch);
      assert targets == front + [last];
    }
  }

  /** Event `i` opened a channel: a subscription to a running broker. */
  ghost predicate Opens(es: seq<Event>, i: nat) {
    i < |es| && es[i].Subscribe? && After(es[..i]).running
  }

  ghost function ChannelOf(es: seq<Event>, i: nat): ChannelId
    requires i <= |es|
  {
    |After(es[..i]).channels|
  }

  /** No stop among the events from `i` on. */
  ghost predicate NoStop(es: seq<Event>, i: nat) {
    forall j | i <= j < |es| :: !es[j].Stop?
  }

  /** The messages published to topic `t` from event `i` until the first stop, in order. */
  function Delivered(es: seq<Event>, i: nat, t: Topic): seq<Payload>
    requires i <= |es|
    decreases |es| - i
  {
    if i == |es| || es[i].Stop? then []
    else (match es[i]
          case Publish(u, m) => if u == t then [m] else []
          case _ => [])
         + Delivered(es, i + 1, t)
  }

  lemma {:induction false} DeliveredSnoc(es: seq<Event>, i: nat, t: Topic, e: Event)
    requires i <= |es|
    ensures Delivered(es + [e], i, t) ==
              Delivered(es, i, t) + (if NoStop(es, i) && e.Publish? && e.topic == t then [e.message] else [])
    decreases |es| - i
  {
    if i < |es| && !es[i].Stop? {
      DeliveredSnoc(es, i + 1, t, e);
    } else if i == |es| {
      assert Delivered(es + [e], i + 1, t) == [];
    }
  }

  /** Channel `ch` is registered under topic `t` and nowhere else, as long as it is live. */
  ghost predicate Attached(s: BrokerState, ch: ChannelId, t: Topic, live: bool) {
    && ch < |s.channels|
    && (live ==> s.running && ch in Subscribers(s, t))
    && (forall u | u != t || !live :: ch !in Subscribers(s, u))
  }

  /** One event, seen from a channel: a live channel gets what is published to its topic. */
  lemma AttachedStep(s: BrokerState, e: Event, ch: ChannelId, t: Topic, live: bool)
    requires Valid(s) && Registered(s) && Attached(s, ch, t, live)
    ensures Attached(Next(s, e), ch, t, live && !e.Stop?)
    ensures Next(s, e).channels[ch] ==
              s.channels[ch] + (if live && e.Publish? && e.topic == t then [e.message] else [])
  {
    hide SendAll;
    if e.Publish? && s.running {
      SendAllAt(s.channels, Subscribers(s, e.topic), e.message, ch);
    }
    forall u | u != t || !(live && !e.Stop?) ensures ch !in Subscribers(Next(s, e), u) {
      assert u != t || !live ==> ch !in Subscribers(s, u);
    }
  }

  /** What the run so far means for the channel that event `i` opened. */
  ghost predicate ChannelOk(es: seq<Event>, i: nat)
    requires Opens(es, i)
  {
    var s, ch, t := After(es), ChannelOf(es, i), es[i].topic;
    Attached(s, ch, t, NoStop(es, i + 1)) && s.channels[ch] == Delivered(es, i + 1, t)
  }

  lemma OpenedNow(es: seq<Event>, i: nat)
    requires Opens(es, i) && |es| == i + 1
    ensures ChannelOk(es, i)
  {
    var before, t := After(es[..i]), es[i].topic;
    assert After(es) == Next(before, es[i]);
    assert forall u :: |before.channels| !in Subscribers(before, u);
  }

  lemma ChannelStep(front: seq<Event>, e: Event, i: nat)
    requires Opens(front, i) && ChannelOk(front, i) && Opens(front + [e], i)
    ensures ChannelOk(front + [e], i)
  {
    hide SendAll; hide Valid; hide Registered; hide Next; hide Attached;
    var es, s, ch, t := front + [e], After(front), ChannelOf(front, i), front[i].topic;
    assert es[..|es| - 1] == front && es[..i] == front[..i];
    assert After(es) == Next(s, e);
    AttachedStep(s, e, ch, t, NoStop(front, i + 1));
    DeliveredSnoc(front, i + 1, t, e);
    NoStopSnoc(front, i + 1, e);
  }

  lemma NoStopSnoc(front: seq<Event>, i: nat, e: Event)
    requires i <= |front|
    ensures NoStop(front + [e], i) <==> NoStop(front, i) && !e.Stop?
  {
    if NoStop(front + [e], i) {
      assert (front + [e])[|front|] == e;
      forall j | i <= j < |front| ensures !front[j].Stop? { assert (front + [e])[j] == front[j]; }
    }
  }

  lemma {:induction false} ChannelHolds(es: seq<Event>, i: nat)
    requires Opens(es, i)
    ensures ChannelOk(es, i)
  {
    if |es| == i + 1 {
      OpenedNow(es, i);
    } else {
      var front, e := es[..|es| - 1], es[|es| - 1];
      assert es == front + [e] && front[..i] == es[..i];
      ChannelHolds(front, i);
      ChannelStep(front, e, i);
    }
  }

  /**
   Broker delivery: at the end of any run, the channel that a successful subscription
   opened holds exactly the messages published to its topic after the subscription and
   before the next stop, in order.
   */
  lemma DeliveryIsExact(es: seq<Event>, i: nat)
    requires Opens(es, i)
    ensures ChannelOf(es, i) < |After(es).channels|
    ensures After(es).channels[ChannelOf(es, i)] == Delivered(es, i + 1, es[i].topic)
  {
    ChannelHolds(es, i);
  }

  /** Whether the broker runs after the events: the last start or stop was a start. */
  function RunningAfter(es: seq<Event>): bool {
    if es == [] then false
    else match es[|es| - 1]
         case Start => true
         case Stop => false
         case _ => RunningAfter(es[..|es| - 1])
  }

  /** How many publish calls found the broker running. */
  function AcceptedPublishes(es: seq<Event>): nat {
    if es == [] then 0
    else var front := es[..|es| - 1];
         AcceptedPublishes(front) + (if es[|es| - 1].Publish? && RunningAfter(front) then 1 else 0)
  }

  /** The counter is the number of successful publishes, and the broker runs from each start to the next stop. */
  lemma {:induction false} CounterIsExact(es: seq<Event>)
    ensures After(es).running == RunningAfter(es) && After(es).counter == AcceptedPublishes(es)
  {
    if es != [] {
      CounterIsExact(es[..|es| - 1]);
    }
  }
}
