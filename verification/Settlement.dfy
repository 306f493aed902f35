/**
 Settling a delivery (mognet/broker/amqp_broker.py) and cancelling the task that handles it
 (mognet/worker/worker.py).
 */
module Settlement {
  import opened Types

  datatype Verb = Ack | Nack

  /** What the broker is sent when `asked` are requested, in that order, on one delivery. */
  function Wire(processed: bool, asked: seq<Verb>): seq<Verb>
    decreases asked
  {
    if asked == [] then []
    else if processed then Wire(true, asked[1..])
    else [asked[0]] + Wire(true, asked[1..])
  }

  /** The settlement that takes effect on the broker. */
  function Effect(asked: seq<Verb>): Option<Verb> {
    var wire := Wire(false, asked);
    if wire == [] then None else Some(wire[0])
  }

  lemma {:induction false} NothingMore(asked: seq<Verb>)
    ensures Wire(true, asked) == []
  {
    if asked != [] {
      NothingMore(asked[1..]);
    }
  }

  lemma {:induction false} WireConcat(processed: bool, asked: seq<Verb>, more: seq<Verb>)
    ensures Wire(processed, asked + more) == Wire(processed, asked) + Wire(processed || asked != [], more)
    decreases asked
  {
    if asked == [] {
      assert [] + more == more;
    } else {
      WireConcat(true, asked[1..], more);
      assert (asked + more)[1..] == asked[1..] + more;
    }
  }

  /** However acknowledgements and rejections interleave, the broker is sent one settlement, the first one asked for. */
  lemma FirstSettlementWins(asked: seq<Verb>)
    ensures Wire(false, asked) == asked[..if asked == [] then 0 else 1]
    ensures Effect(asked) == if asked == [] then None else Some(asked[0])
  {
    if asked != [] {
      NothingMore(asked[1..]);
    }
  }

  lemma Sent(asked: seq<Verb>)
    ensures Wire(false, asked) == [] <==> asked == []
  {
    FirstSettlementWins(asked);
  }

  /** A delivered message; `wire` is what the broker was sent about it. */
  class Payload {
    const tag: Tag
    var processed: bool
    var wire: seq<Verb>
    ghost var asked: seq<Verb>

    ghost predicate Valid()
      reads this
    {
      (processed <==> asked != []) && wire == Wire(false, asked)
    }

    constructor (tag: Tag)
      ensures Valid() && asked == [] && this.tag == tag
    {
      this.tag := tag;
      processed, wire, asked := false, [], [];
    }

    /** ack and nack: the flag is set before the broker is called, and only the first call reaches it. */
    method Settle(verb: Verb)
      requires Valid()
      modifies this
      ensures Valid() && asked == old(asked) + [verb]
      ensures wire == if old(asked) == [] then [verb] else old(wire)
    {
      WireConcat(false, asked, [verb]);
      asked := asked + [verb];
      if processed {
        return;
      }
      processed := true;
      wire := wire + [verb];
    }
  }

  /** What cancel is to do with the message. */
  datatype MessageAction = Nothing | AckIt | NackIt

  function Asks(action: MessageAction): seq<Verb> {
    match action
    case Nothing => []
    case AckIt => [Ack]
    case NackIt => [Nack]
  }

  /** _RequestProcessorHolder: `cancelled` counts the cancellations that reached the asyncio task. */
  class Holder {
    const message: Payload
    var task: bool
    var cancelled: nat

    ghost predicate Valid()
      reads this, message
    {
      message.Valid() && cancelled == if task then 0 else 1
    }

    constructor (message: Payload)
      requires message.Valid()
      ensures Valid() && this.message == message && task
    {
      this.message, task, cancelled := message, true, 0;
    }

    /** The half of cancel before its first await: settle the message. */
    method SettleMessage(action: MessageAction)
      requires Valid()
      modifies message
      ensures Valid() && message.asked == old(message.asked) + Asks(action)
      ensures old(message.wire) != [] ==> message.wire == old(message.wire)
      ensures old(message.wire) == [] ==>
        message.wire == match action case Nothing => [] case AckIt => [Ack] case NackIt => [Nack]
    {
      Sent(message.asked);
      match action
      case Nothing =>
      case AckIt => message.Settle(Ack);
      case NackIt => message.Settle(Nack);
    }

    /** The other half: cancel the task unless some call already did. */
    method CancelTask()
      requires Valid()
      modifies this
      ensures Valid() && !task && cancelled == 1
    {
      if task {
        task := false;
        cancelled := cancelled + 1;
      }
    }
  }

  /** What can happen to a delivery: the processor or a cancel settles it, or a cancel reaches the task. */
  datatype Event = Settling(action: MessageAction) | Cancelling

  function AskedOnce(e: Event): seq<Verb> {
    match e case Settling(action) => Asks(action) case Cancelling => []
  }

  ghost function AskedBy(events: seq<Event>): seq<Verb> {
    if events == [] then []
    else AskedBy(events[..|events| - 1]) + AskedOnce(events[|events| - 1])
  }

  /** Event `i` is the first that asks for a settlement. */
  predicate AsksFirst(events: seq<Event>, i: int) {
    && 0 <= i < |events| && (events[i] == Settling(AckIt) || events[i] == Settling(NackIt))
    && forall j | 0 <= j < i :: events[j] != Settling(AckIt) && events[j] != Settling(NackIt)
  }

  /** The first event that asks decides what is asked for first; without one, nothing is asked for. */
  lemma {:induction false} FirstAsked(events: seq<Event>)
    ensures AskedBy(events) == [] <==> Settling(AckIt) !in events && Settling(NackIt) !in events
    ensures forall i | AsksFirst(events, i) ::
              AskedBy(events) != [] && AskedBy(events)[0] == if events[i] == Settling(AckIt) then Ack else Nack
  {
    if events != [] {
      var n := |events| - 1;
      FirstAsked(events[..n]);
      assert events == events[..n] + [events[n]];
      forall i | AsksFirst(events, i)
        ensures AskedBy(events) != [] && AskedBy(events)[0] == if events[i] == Settling(AckIt) then Ack else Nack
      {
        if i < n {
          assert AsksFirst(events[..n], i);
        } else {
          assert forall e | e in events[..n] :: e != Settling(AckIt) && e != Settling(NackIt);
        }
      }
    }
  }

  lemma WireOf(events: seq<Event>)
    ensures Settling(AckIt) !in events && Settling(NackIt) !in events ==> Wire(false, AskedBy(events)) == []
    ensures forall i | AsksFirst(events, i) ::
              Wire(false, AskedBy(events)) == [if events[i] == Settling(AckIt) then Ack else Nack]
  {
    FirstSettlementWins(AskedBy(events));
    FirstAsked(events);
  }

  method HandleEvent(holder: Holder, e: Event)
    requires holder.Valid()
    modifies holder, holder.message
    ensures holder.Valid() && holder.message.asked == old(holder.message.asked) + AskedOnce(e)
    ensures holder.task <==> old(holder.task) && !e.Cancelling?
  {
    match e
    case Settling(action) => holder.SettleMessage(action);
    case Cancelling => holder.CancelTask();
  }

  /**
   Any interleaving of the processor's ack or nack and of any number of cancels: one settlement at
   most is sent, the first one asked for, and the task is cancelled once at most.
   */
  method HandleEvents(holder: Holder, events: seq<Event>)
    requires holder.Valid() && holder.message.asked == [] && holder.task
    modifies holder, holder.message
    ensures holder.Valid()
    ensures Settling(AckIt) !in events && Settling(NackIt) !in events ==> holder.message.wire == []
    ensures forall i | AsksFirst(events, i) ::
              holder.message.wire == [if events[i] == Settling(AckIt) then Ack else Nack]
    ensures holder.cancelled == if Cancelling in events then 1 else 0
  {
    for i := 0 to |events|
      invariant holder.Valid() && holder.message.asked == AskedBy(events[..i])
      invariant holder.task <==> Cancelling !in events[..i]
    {
      assert events[..i + 1][..i] == events[..i];
      HandleEvent(holder, events[i]);
    }
    assert events[..|events|] == events;
    WireOf(events);
  }
}
