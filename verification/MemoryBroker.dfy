/** The in-memory broker (mognet/broker/memory_broker.py): one gate for the consumers of all task queues. */
module MemoryBroker {
  import opened Types
  import opened WorkerModel

  type Message = nat

  /**
   Task queue i has consumer i. A consumer is before `wait()`, or in `atQueue`: past the gate and at its
   queue. `unacked` is the counter, `open` the event.
   */
  datatype Gate = Gate(queues: seq<seq<Message>>, atQueue: set<nat>, unacked: nat, prefetch: nat, open: bool)

  /** A new broker: the event is not set. */
  function NewGate(consumers: nat): Gate {
    Gate(seq(consumers, _ => []), {}, 0, 1, false)
  }

  function Updated(g: Gate): Gate {
    g.(open := g.unacked < g.prefetch)
  }

  function Put(g: Gate, i: nat, message: Message): Gate
    requires i < |g.queues|
  {
    g.(queues := g.queues[i := g.queues[i] + [message]])
  }

  predicate CanTake(g: Gate, i: nat) {
    i in g.atQueue && i < |g.queues| && g.queues[i] != []
  }

  function Taken(g: Gate, i: nat): Gate
    requires CanTake(g, i)
  {
    Updated(g.(queues := g.queues[i := g.queues[i][1..]], atQueue := g.atQueue - {i}, unacked := g.unacked + 1))
  }

  function Acked(g: Gate): Gate {
    Updated(g.(unacked := if g.unacked == 0 then 0 else g.unacked - 1))
  }

  class InMemoryBroker {
    var queues: seq<seq<Message>>
    var atQueue: set<nat>
    var unackedTaskCount: nat
    var taskPrefetch: nat
    var taskEvent: bool

    function View(): Gate
      reads this
    {
      Gate(queues, atQueue, unackedTaskCount, taskPrefetch, taskEvent)
    }

    constructor (consumers: nat)
      ensures View() == NewGate(consumers)
      ensures |queues| == consumers && atQueue == {} && !taskEvent && unackedTaskCount == 0 && taskPrefetch == 1
      ensures forall i | 0 <= i < consumers :: queues[i] == []
    {
      queues, atQueue := seq(consumers, _ => []), {};
      unackedTaskCount, taskPrefetch, taskEvent := 0, 1, false;
    }

    method UpdateTaskEvent()
      modifies this`taskEvent
      ensures View() == Updated(old(View()))
      ensures taskEvent <==> unackedTaskCount < taskPrefetch
    {
      taskEvent := unackedTaskCount < taskPrefetch;
    }

    /** send_task_message, and a nack: it puts the message back and leaves the counter alone. */
    method PutMessage(i: nat, message: Message)
      requires i < |queues|
      modifies this`queues
      ensures View() == Put(old(View()), i, message)
      ensures queues == old(queues)[i := old(queues[i]) + [message]]
    {
      queues := queues[i := queues[i] + [message]];
    }

    /** A consumer finds the gate open. */
    method PassGate(i: nat)
      requires taskEvent
      modifies this`atQueue
      ensures View() == old(View()).(atQueue := old(atQueue) + {i})
    {
      atQueue := atQueue + {i};
    }

    /** A consumer gets a message, counts it and hands it out. */
    method TakeMessage(i: nat) returns (message: Message)
      requires CanTake(View(), i)
      modifies this
      ensures message == old(queues[i][0]) && View() == Taken(old(View()), i)
      ensures |queues| == old(|queues|) && [message] + queues[i] == old(queues[i])
      ensures forall j | 0 <= j < |queues| && j != i :: queues[j] == old(queues)[j]
      ensures atQueue == old(atQueue) - {i}
      ensures unackedTaskCount == old(unackedTaskCount) + 1 && taskPrefetch == old(taskPrefetch)
      ensures taskEvent <==> unackedTaskCount < taskPrefetch
    {
      message := queues[i][0];
      queues := queues[i := queues[i][1..]];
      atQueue := atQueue - {i};
      unackedTaskCount := unackedTaskCount + 1;
      UpdateTaskEvent();
    }

    method AckTask()
      modifies this
      ensures View() == Acked(old(View())) && queues == old(queues) && atQueue == old(atQueue)
      ensures taskPrefetch == old(taskPrefetch)
      ensures old(unackedTaskCount) > 0 ==> unackedTaskCount == old(unackedTaskCount) - 1
      ensures old(unackedTaskCount) == 0 ==> unackedTaskCount == 0
      ensures taskEvent <==> unackedTaskCount < taskPrefetch
    {
      unackedTaskCount := if unackedTaskCount == 0 then 0 else unackedTaskCount - 1;
      UpdateTaskEvent();
    }

    method SetTaskPrefetch(prefetch: nat)
      modifies this
      ensures View() == Updated(old(View()).(prefetch := prefetch)) && queues == old(queues) && atQueue == old(atQueue)
      ensures taskPrefetch == prefetch && unackedTaskCount == old(unackedTaskCount)
      ensures taskEvent <==> unackedTaskCount < prefetch
    {
      taskPrefetch := prefetch;
      UpdateTaskEvent();
    }
  }

  // ----- interleavings

  /** A message that was handed out; deliveries are numbered in the order they happen. */
  datatype Delivery = Delivery(queue: nat, message: Message)

  /** `acked` has each delivery as often as it was acknowledged. */
  datatype Trace = Trace(gate: Gate, deliveries: seq<Delivery>, acked: multiset<nat>)

  /** A step of a publisher, of consumer i, of the processor of delivery d, or of the worker. */
  datatype Event =
    | Publish(i: nat, message: Message) | Pass(i: nat) | Take(i: nat) | Ack(d: nat) | Nack(d: nat)
    | SetPrefetch(prefetch: nat)

  ghost predicate Fits(t: Trace) {
    forall d | 0 <= d < |t.deliveries| :: t.deliveries[d].queue < |t.gate.queues|
  }

  /** A step that is not possible yet does nothing. */
  function Step(t: Trace, e: Event): Trace
    requires Fits(t)
  {
    var g := t.gate;
    match e
    case Publish(i, message) => if i < |g.queues| then t.(gate := Put(g, i, message)) else t
    case Pass(i) => if i < |g.queues| && g.open then t.(gate := g.(atQueue := g.atQueue + {i})) else t
    case Take(i) =>
      if CanTake(g, i) then t.(gate := Taken(g, i), deliveries := t.deliveries + [Delivery(i, g.queues[i][0])]) else t
    case Ack(d) => if d < |t.deliveries| then t.(gate := Acked(g), acked := t.acked + multiset{d}) else t
    case Nack(d) =>
      if d < |t.deliveries| then t.(gate := Put(g, t.deliveries[d].queue, t.deliveries[d].message)) else t
    case SetPrefetch(prefetch) => t.(gate := Updated(g.(prefetch := prefetch)))
  }

  function Steps(t: Trace, events: seq<Event>): (t': Trace)
    requires Fits(t)
    ensures Fits(t') && |t'.gate.queues| == |t.gate.queues|
  {
    if events == [] then t else Step(Steps(t, events[..|events| - 1]), events[|events| - 1])
  }

  function Run(consumers: nat, events: seq<Event>): (t: Trace)
    ensures |t.gate.queues| == consumers && Fits(t)
  {
    Steps(Trace(NewGate(consumers), [], multiset{}), events)
  }

  lemma RunMore(consumers: nat, events: seq<Event>, e: Event)
    ensures Run(consumers, events + [e]) == Step(Run(consumers, events), e)
  {
    assert (events + [e])[..|events|] == events;
  }

  /** The broker's methods, called as the events say, leave the gate that `Run` says. */
  method Serve(consumers: nat, events: seq<Event>) returns (broker: InMemoryBroker, deliveries: seq<Delivery>)
    ensures fresh(broker) && broker.View() == Run(consumers, events).gate
    ensures deliveries == Run(consumers, events).deliveries
  {
    broker := new InMemoryBroker(consumers);
    deliveries := [];
    for n := 0 to |events|
      invariant fresh(broker) && broker.View() == Run(consumers, events[..n]).gate
      invariant deliveries == Run(consumers, events[..n]).deliveries
    {
      assert events[..n + 1] == events[..n] + [events[n]];
      RunMore(consumers, events[..n], events[n]);
      match events[n]
      case Publish(i, message) =>
        if i < consumers {
          broker.PutMessage(i, message);
        }
      case Pass(i) =>
        if i < consumers && broker.taskEvent {
          broker.PassGate(i);
        }
      case Take(i) =>
        if i in broker.atQueue && i < consumers && broker.queues[i] != [] {
          var message := broker.TakeMessage(i);
          deliveries := deliveries + [Delivery(i, message)];
        }
      case Ack(d) =>
        if d < |deliveries| {
          broker.AckTask();
        }
      case Nack(d) =>
        if d < |deliveries| {
          broker.PutMessage(deliveries[d].queue, deliveries[d].message);
        }
      case SetPrefetch(prefetch) => broker.SetTaskPrefetch(prefetch);
    }
    assert events[..|events|] == events;
  }

  // ----- first in, first out

  /** What the step puts into queue i: a new message, or a rejected one that came from there. */
  function PutBy(t: Trace, e: Event, i: nat): seq<Message> {
    match e
    case Publish(j, message) => if j == i then [message] else []
    case Nack(d) => if d < |t.deliveries| && t.deliveries[d].queue == i then [t.deliveries[d].message] else []
    case _ => []
  }

  function PutInto(consumers: nat, events: seq<Event>, i: nat): seq<Message> {
    if events == [] then []
    else
      var before := events[..|events| - 1];
      PutInto(consumers, before, i) + PutBy(Run(consumers, before), events[|events| - 1], i)
  }

  function TakenFrom(deliveries: seq<Delivery>, i: nat): seq<Message> {
    if deliveries == [] then []
    else
      var last := deliveries[|deliveries| - 1];
      TakenFrom(deliveries[..|deliveries| - 1], i) + if last.queue == i then [last.message] else []
  }

  lemma TakenMore(deliveries: seq<Delivery>, d: Delivery, i: nat)
    ensures TakenFrom(deliveries + [d], i) == TakenFrom(deliveries, i) + if d.queue == i then [d.message] else []
  {
    assert (deliveries + [d])[..|deliveries|] == deliveries;
  }

  lemma StepInOrder(t: Trace, e: Event, i: nat)
    requires Fits(t) && i < |t.gate.queues|
    ensures TakenFrom(Step(t, e).deliveries, i) + Step(t, e).gate.queues[i]
         == TakenFrom(t.deliveries, i) + (t.gate.queues[i] + PutBy(t, e, i))
  {
    if e.Take? && CanTake(t.gate, e.i) {
      var first := t.gate.queues[e.i][0];
      TakenMore(t.deliveries, Delivery(e.i, first), i);
      if e.i == i {
        assert [first] + t.gate.queues[i][1..] == t.gate.queues[i] + [];
      }
    }
  }

  lemma Assoc(a: seq<Message>, b: seq<Message>, c: seq<Message>)
    ensures (a + b) + c == a + (b + c)
  {
  }

  /**
   For every interleaving: what was sent to a queue or rejected from it was delivered from it in this order, or is
   still there.
   */
  lemma {:induction false} FirstInFirstOut(consumers: nat, events: seq<Event>, i: nat)
    requires i < consumers
    ensures PutInto(consumers, events, i)
         == TakenFrom(Run(consumers, events).deliveries, i) + Run(consumers, events).gate.queues[i]
  {
    if events != [] {
      var before, e := events[..|events| - 1], events[|events| - 1];
      var t := Run(consumers, before);
      FirstInFirstOut(consumers, before, i);
      StepInOrder(t, e, i);
      Assoc(TakenFrom(t.deliveries, i), t.gate.queues[i], PutBy(t, e, i));
    }
  }

  predicate OnlyTakes(events: seq<Event>, i: nat) {
    forall e | e in events :: e.SetPrefetch? || e == Pass(i) || e == Take(i)
  }

  lemma StepsMore(t: Trace, events: seq<Event>, e: Event)
    requires Fits(t)
    ensures Steps(t, events + [e]) == Step(Steps(t, events), e)
  {
    assert (events + [e])[..|events|] == events;
  }

  lemma {:induction false} StepsConcat(t: Trace, first: seq<Event>, rest: seq<Event>)
    requires Fits(t)
    ensures Steps(t, first + rest) == Steps(Steps(t, first), rest)
  {
    if rest == [] {
      assert first + rest == first;
    } else {
      StepsConcat(t, first, rest[..|rest| - 1]);
      assert (first + rest)[..|first + rest| - 1] == first + rest[..|rest| - 1];
    }
  }

  lemma HeadOut(t: Trace, i: nat) returns (more: seq<Event>)
    requires Fits(t) && i < |t.gate.queues| && t.gate.queues[i] != []
    ensures OnlyTakes(more, i)
    ensures Steps(t, more).gate.queues[i] == t.gate.queues[i][1..]
    ensures Steps(t, more).deliveries == t.deliveries + [Delivery(i, t.gate.queues[i][0])]
  {
    var open := SetPrefetch(t.gate.unacked + 1);
    StepsMore(t, [], open);
    StepsMore(t, [open], Pass(i));
    StepsMore(t, [open] + [Pass(i)], Take(i));
    assert [] + [open] == [open];
    more := [open] + [Pass(i)] + [Take(i)];
  }

  function Out(i: nat, messages: seq<Message>): seq<Delivery> {
    seq(|messages|, k requires 0 <= k < |messages| => Delivery(i, messages[k]))
  }

  /** With a prefetch that is high enough, consumer i delivers what its queue holds, in order. */
  lemma {:induction false} GoesOut(t: Trace, i: nat) returns (more: seq<Event>)
    requires Fits(t) && i < |t.gate.queues|
    ensures OnlyTakes(more, i)
    ensures Steps(t, more).gate.queues[i] == []
    ensures Steps(t, more).deliveries == t.deliveries + Out(i, t.gate.queues[i])
    decreases |t.gate.queues[i]|
  {
    var queue := t.gate.queues[i];
    if queue == [] {
      more := [];
    } else {
      var first := HeadOut(t, i);
      var rest := GoesOut(Steps(t, first), i);
      StepsConcat(t, first, rest);
      assert [Delivery(i, queue[0])] + Out(i, queue[1..]) == Out(i, queue);
      more := first + rest;
    }
  }

  /** Whatever happened before, a message that is rejected can be delivered again, after those it is queued behind. */
  lemma DeliveredAgain(consumers: nat, events: seq<Event>, d: nat) returns (more: seq<Event>)
    requires d < |Run(consumers, events).deliveries|
    ensures var t := Run(consumers, events);
            var t' := Run(consumers, events + [Nack(d)] + more);
            var again := t.deliveries[d];
            && OnlyTakes(more, again.queue) && t'.gate.queues[again.queue] == []
            && t'.deliveries == t.deliveries + Out(again.queue, t.gate.queues[again.queue]) + [again]
  {
    var t := Run(consumers, events);
    var i := t.deliveries[d].queue;
    RunMore(consumers, events, Nack(d));
    var t1 := Run(consumers, events + [Nack(d)]);
    more := GoesOut(t1, i);
    StepsConcat(Run(consumers, []), events + [Nack(d)], more);
    assert Out(i, t1.gate.queues[i]) == Out(i, t.gate.queues[i]) + [t.deliveries[d]];
  }

  // ----- the counter

  /** The highest prefetch set by the events, the initial 1 included. */
  function Highest(events: seq<Event>): (h: nat)
    ensures h >= 1
  {
    if events == [] then 1
    else
      var h, e := Highest(events[..|events| - 1]), events[|events| - 1];
      if e.SetPrefetch? && e.prefetch > h then e.prefetch else h
  }

  /** Consumers past the gate count like messages: each passed while there was room for one. */
  ghost predicate Bounded(g: Gate, highest: nat) {
    && g.prefetch <= highest
    && (g.open ==> g.unacked < g.prefetch)
    && (forall i | i in g.atQueue :: i < |g.queues|)
    && g.unacked + |g.atQueue| <= highest + |g.queues| - 1
  }

  lemma {:induction false} AtMost(n: nat, some: set<nat>)
    requires forall i | i in some :: i < n
    ensures |some| <= n
  {
    if n > 0 {
      AtMost(n - 1, some - {n - 1});
    } else {
      assert some == {};
    }
  }

  lemma PassBounded(g: Gate, i: nat, highest: nat)
    requires Bounded(g, highest) && i < |g.queues| && g.open
    ensures Bounded(g.(atQueue := g.atQueue + {i}), highest)
  {
    AtMost(|g.queues|, g.atQueue + {i});
  }

  lemma {:induction false} RunBounded(consumers: nat, events: seq<Event>)
    requires consumers >= 1
    ensures Bounded(Run(consumers, events).gate, Highest(events))
  {
    if events != [] {
      var before, e := events[..|events| - 1], events[|events| - 1];
      RunBounded(consumers, before);
      var g := Run(consumers, before).gate;
      if e.Pass? && e.i < consumers && g.open {
        PassBounded(g, e.i, Highest(before));
      }
    }
  }

  /**
   For every interleaving with k consumers, whatever is acknowledged, the counter never exceeds the highest
   prefetch ever set by more than k - 1; with one consumer the prefetch is an exact bound.
   */
  lemma CounterBound(consumers: nat, events: seq<Event>)
    requires consumers >= 1
    ensures Run(consumers, events).gate.unacked <= Highest(events) + consumers - 1
    ensures consumers == 1 ==> Run(consumers, events).gate.unacked <= Highest(events)
  {
    RunBounded(consumers, events);
  }

  /** No delivery is acknowledged twice. */
  ghost predicate OnceEach(t: Trace) {
    forall d | d in t.acked :: t.acked[d] == 1
  }

  lemma {:induction false} AckedExists(consumers: nat, events: seq<Event>)
    ensures forall d | d in Run(consumers, events).acked :: d < |Run(consumers, events).deliveries|
  {
    if events != [] {
      var before := events[..|events| - 1];
      AckedExists(consumers, before);
      RunMore(consumers, before, events[|events| - 1]);
      assert events == before + [events[|events| - 1]];
    }
  }

  lemma {:induction false} FewerAcks(acked: multiset<nat>, n: nat)
    requires forall d | d in acked :: d < n && acked[d] == 1
    ensures |acked| <= n
  {
    if n > 0 {
      if n - 1 in acked {
        FewerAcks(acked - multiset{n - 1}, n - 1);
      } else {
        FewerAcks(acked, n - 1);
      }
    } else {
      assert acked == multiset{};
    }
  }

  /** As long as no delivery is acknowledged twice, the counter is the deliveries minus the acknowledgements. */
  lemma {:induction false} CounterExact(consumers: nat, events: seq<Event>)
    requires OnceEach(Run(consumers, events))
    ensures Run(consumers, events).gate.unacked == |Run(consumers, events).deliveries| - |Run(consumers, events).acked|
  {
    if events != [] {
      var before, e := events[..|events| - 1], events[|events| - 1];
      var t, t' := Run(consumers, before), Run(consumers, events);
      forall d | d in t.acked ensures t.acked[d] == 1 {
        assert t'.acked[d] >= t.acked[d] && d in t'.acked;
      }
      CounterExact(consumers, before);
      if e.Ack? && e.d < |t.deliveries| {
        AckedExists(consumers, events);
        assert t'.acked[e.d] == t.acked[e.d] + 1 && e.d in t'.acked;
        FewerAcks(t'.acked, |t'.deliveries|);
        assert |t'.acked| == |t.acked| + 1;
      }
    }
  }

  // ----- the bound is reached

  /** Repeat: publish to queue 0, pass the gate, take. */
  lemma {:induction false} Fill(consumers: nat, prefetch: nat, n: nat) returns (events: seq<Event>)
    requires consumers >= 1 && n < prefetch
    ensures Highest(events) == prefetch && Run(consumers, events).acked == multiset{}
    ensures var g := Run(consumers, events).gate;
            && g.unacked == n && g.prefetch == prefetch && g.open && g.atQueue == {}
            && g.queues == NewGate(consumers).queues
  {
    if n == 0 {
      events := [SetPrefetch(prefetch)];
      RunMore(consumers, [], SetPrefetch(prefetch));
      assert events[..0] == [] && [] + events == events;
    } else {
      events := Fill(consumers, prefetch, n - 1);
      var t := Run(consumers, events);
      RunMore(consumers, events, Publish(0, n));
      RunMore(consumers, events + [Publish(0, n)], Pass(0));
      RunMore(consumers, events + [Publish(0, n)] + [Pass(0)], Take(0));
      HighestMore(events, Publish(0, n));
      HighestMore(events + [Publish(0, n)], Pass(0));
      HighestMore(events + [Publish(0, n)] + [Pass(0)], Take(0));
      events := events + [Publish(0, n)] + [Pass(0)] + [Take(0)];
      var q := t.gate.queues;
      assert (q[0] + [n])[1..] == q[0];
      assert q[0 := q[0] + [n]][0 := q[0]] == q;
    }
  }

  lemma HighestMore(events: seq<Event>, e: Event)
    requires !e.SetPrefetch?
    ensures Highest(events + [e]) == Highest(events)
  {
    assert (events + [e])[..|events|] == events;
  }

  /** All consumers up to n pass the open gate, with a message in their queues. */
  lemma {:induction false} AllPass(consumers: nat, prefetch: nat, n: nat) returns (events: seq<Event>)
    requires 1 <= prefetch && 1 <= consumers && n <= consumers
    ensures Highest(events) == prefetch && Run(consumers, events).acked == multiset{}
    ensures var g := Run(consumers, events).gate;
            && g.unacked == prefetch - 1 && g.prefetch == prefetch && g.open
            && (forall i :: i in g.atQueue <==> 0 <= i < n)
            && forall i | 0 <= i < n :: g.queues[i] != []
  {
    if n == 0 {
      events := Fill(consumers, prefetch, prefetch - 1);
    } else {
      events := AllPass(consumers, prefetch, n - 1);
      RunMore(consumers, events, Publish(n - 1, 0));
      RunMore(consumers, events + [Publish(n - 1, 0)], Pass(n - 1));
      HighestMore(events, Publish(n - 1, 0));
      HighestMore(events + [Publish(n - 1, 0)], Pass(n - 1));
      events := events + [Publish(n - 1, 0)] + [Pass(n - 1)];
    }
  }

  lemma {:induction false} AllTake(consumers: nat, prefetch: nat, n: nat) returns (events: seq<Event>)
    requires 1 <= prefetch && 1 <= consumers && n <= consumers
    ensures Highest(events) == prefetch && Run(consumers, events).acked == multiset{}
    ensures var g := Run(consumers, events).gate;
            && g.unacked == prefetch - 1 + n
            && (forall i :: i in g.atQueue <==> n <= i < consumers)
            && forall i | n <= i < consumers :: g.queues[i] != []
  {
    if n == 0 {
      events := AllPass(consumers, prefetch, consumers);
    } else {
      events := AllTake(consumers, prefetch, n - 1);
      RunMore(consumers, events, Take(n - 1));
      HighestMore(events, Take(n - 1));
      events := events + [Take(n - 1)];
    }
  }

  /** The bound is reached for every prefetch and every number of consumers, with nothing acknowledged. */
  lemma Overshoot(consumers: nat, prefetch: nat) returns (events: seq<Event>)
    requires consumers >= 1 && prefetch >= 1
    ensures Highest(events) == prefetch && Run(consumers, events).acked == multiset{}
    ensures Run(consumers, events).gate.unacked == prefetch + consumers - 1
  {
    events := AllTake(consumers, prefetch, consumers);
  }

  // ----- a worker on a new broker

  /** What a worker tells a new broker when it begins to consume. */
  function Greeting(cfg: Config): seq<Event> {
    var adjusted := Adjust(cfg, WorkerState(map[], {}, 1, 1, true));
    if adjusted.prefetch == 1 then [] else [SetPrefetch(adjusted.prefetch)]
  }

  predicate Silent(events: seq<Event>) {
    forall e | e in events :: !e.SetPrefetch?
  }

  /** The gate is closed, and nobody is past it. */
  ghost predicate Shut(t: Trace) {
    t.deliveries == [] && !t.gate.open && t.gate.atQueue == {} && t.gate.unacked == 0
  }

  lemma ShutStep(t: Trace, e: Event)
    requires Fits(t) && Shut(t) && !e.SetPrefetch?
    ensures Shut(Step(t, e))
  {
  }

  lemma GreetingShut(cfg: Config, consumers: nat)
    requires Target(cfg, 0) <= 1
    ensures Shut(Run(consumers, Greeting(cfg)))
  {
    if Greeting(cfg) != [] {
      RunMore(consumers, [], SetPrefetch(0));
      assert Greeting(cfg) == [] + [SetPrefetch(0)];
    }
  }

  lemma {:induction false} StaysShut(cfg: Config, consumers: nat, events: seq<Event>)
    requires Target(cfg, 0) <= 1 && Silent(events)
    ensures Shut(Run(consumers, Greeting(cfg) + events))
  {
    if events == [] {
      assert Greeting(cfg) + events == Greeting(cfg);
      GreetingShut(cfg, consumers);
    } else {
      var before, e := events[..|events| - 1], events[|events| - 1];
      assert forall x | x in before :: x in events;
      StaysShut(cfg, consumers, before);
      assert Greeting(cfg) + events == (Greeting(cfg) + before) + [e];
      RunMore(consumers, Greeting(cfg) + before, e);
      ShutStep(Run(consumers, Greeting(cfg) + before), e);
    }
  }

  /** One message goes through an open gate. */
  lemma GoesThrough(consumers: nat, events: seq<Event>)
    requires consumers >= 1 && Run(consumers, events).gate.open
    ensures Run(consumers, events + [Publish(0, 0)] + [Pass(0)] + [Take(0)]).deliveries != []
  {
    RunMore(consumers, events, Publish(0, 0));
    RunMore(consumers, events + [Publish(0, 0)], Pass(0));
    RunMore(consumers, events + [Publish(0, 0)] + [Pass(0)], Take(0));
  }

  /**
   Until the worker changes its prefetch again, a new in-memory broker can deliver something to it exactly if
   the minimum, and the maximum if there is one, are above 1: the gate starts closed, and a target of 1 is not
   worth a call.
   */
  lemma ServesIff(cfg: Config, consumers: nat)
    requires consumers >= 1
    ensures (exists events :: Silent(events) && Run(consumers, Greeting(cfg) + events).deliveries != [])
            <==> cfg.minimum > 1 && (cfg.maximum.Some? ==> cfg.maximum.value > 1)
  {
    if Target(cfg, 0) > 1 {
      RunMore(consumers, [], SetPrefetch(Target(cfg, 0)));
      assert Greeting(cfg) == [] + [SetPrefetch(Target(cfg, 0))];
      GoesThrough(consumers, Greeting(cfg));
      var events := [Publish(0, 0), Pass(0), Take(0)];
      assert Greeting(cfg) + events == Greeting(cfg) + [Publish(0, 0)] + [Pass(0)] + [Take(0)];
      assert Silent(events);
    } else {
      forall events | Silent(events) ensures Run(consumers, Greeting(cfg) + events).deliveries == [] {
        StaysShut(cfg, consumers, events);
      }
    }
  }

  /** The worker's first call on a new broker, if it is worth one. */
  method StartWorker(cfg: Config, consumers: nat) returns (broker: InMemoryBroker)
    ensures fresh(broker) && broker.View() == Run(consumers, Greeting(cfg)).gate
    ensures broker.taskEvent <==> cfg.minimum > 1 && (cfg.maximum.Some? ==> cfg.maximum.value > 1)
  {
    broker := new InMemoryBroker(consumers);
    var adjusted := Adjust(cfg, WorkerState(map[], {}, 1, 1, true));
    if adjusted.prefetch != 1 {
      broker.SetTaskPrefetch(adjusted.prefetch);
      RunMore(consumers, [], SetPrefetch(adjusted.prefetch));
      assert [] + [SetPrefetch(adjusted.prefetch)] == Greeting(cfg);
    }
  }
}
