/**
 as_generated (mognet/tools/backports/aioitertools.py): one task drains each source into a shared queue,
 a counter says how many are left, and the last to leave puts the end marker.
 */
module Merge {
  import opened Types

  type Value = string

  /** A finite async iterable: its items, and the exception that it raises after them, if any. */
  datatype Source = Source(items: seq<Value>, error: Option<Value>)

  /** An entry of the queue. The index of the source is there for the specification only. */
  datatype Entry = Item(source: nat, value: Value) | Failure(source: nat, error: Value) | Done

  /** A draining task: how many entries it put, and whether it left. */
  datatype Tailer = Tailer(sent: nat, ended: bool)

  /** What source `i` is to contribute. */
  function Script(sources: seq<Source>, i: nat): seq<Entry>
    requires i < |sources|
  {
    Items(sources, i) + if sources[i].error.Some? then [Failure(i, sources[i].error.value)] else []
  }

  function Items(sources: seq<Source>, i: nat): seq<Entry>
    requires i < |sources|
  {
    seq(|sources[i].items|, j requires 0 <= j < |sources[i].items| => Item(i, sources[i].items[j]))
  }

  /** The entries of source `i`, in order. */
  function Of(log: seq<Entry>, i: nat): seq<Entry> {
    if log == [] then []
    else
      var e := log[|log| - 1];
      Of(log[..|log| - 1], i) + if !e.Done? && e.source == i then [e] else []
  }

  /** What source `i` has in the log: its script, or, once `failed` stopped the merge, a prefix of its items. */
  ghost predicate Share(sources: seq<Source>, log: seq<Entry>, i: nat, failed: Option<nat>)
    requires i < |sources|
  {
    match failed
    case None => Of(log, i) == Script(sources, i)
    case Some(f) => Of(log, i) <= Items(sources, i) && (i == f ==> Of(log, i) == Items(sources, i))
  }

  ghost predicate Shares(sources: seq<Source>, log: seq<Entry>, failed: Option<nat>) {
    forall i {:trigger Share(sources, log, i, failed)} | 0 <= i < |sources| :: Share(sources, log, i, failed)
  }

  lemma OfAppend(log: seq<Entry>, e: Entry, i: nat)
    ensures Of([], i) == []
    ensures Of(log + [e], i) == Of(log, i) + if !e.Done? && e.source == i then [e] else []
  {
    assert (log + [e])[..|log|] == log;
  }

  lemma {:induction false} OfPrefix(log: seq<Entry>, n: nat, i: nat)
    requires n <= |log|
    ensures Of(log[..n], i) <= Of(log, i)
    decreases |log|
  {
    if n < |log| {
      OfPrefix(log[..|log| - 1], n, i);
      assert log[..|log| - 1][..n] == log[..n];
    } else {
      assert log[..n] == log;
    }
  }

  function Alive(tailers: seq<Tailer>): set<nat> {
    set i | 0 <= i < |tailers| && !tailers[i].ended
  }

  ghost predicate TailerOk(sources: seq<Source>, tailers: seq<Tailer>, trace: seq<Entry>, i: nat)
    requires i < |sources| == |tailers|
  {
    && tailers[i].sent <= |Script(sources, i)|
    && (tailers[i].ended ==> tailers[i].sent == |Script(sources, i)|)
    && Of(trace, i) == Script(sources, i)[..tailers[i].sent]
  }

  /** No end marker, or just the one at the end. */
  ghost predicate Marked(trace: seq<Entry>, over: bool) {
    && (over ==> trace != [])
    && forall j | 0 <= j < |trace| :: trace[j].Done? <==> over && j == |trace| - 1
  }

  ghost predicate FromSources(sources: seq<Source>, trace: seq<Entry>) {
    forall e | e in trace :: e.Done? || e.source < |sources|
  }

  /** `trace` is everything that was put on the queue. */
  ghost predicate Draining(sources: seq<Source>, tailers: seq<Tailer>, count: int, trace: seq<Entry>) {
    && |tailers| == |sources|
    && count == |Alive(tailers)|
    && Marked(trace, Alive(tailers) == {})
    && FromSources(sources, trace)
    && forall i {:trigger TailerOk(sources, tailers, trace, i)} | 0 <= i < |sources| ::
         TailerOk(sources, tailers, trace, i)
  }

  /** The puts and exits to come. */
  function Left(sources: seq<Source>, tailers: seq<Tailer>): nat
    requires |sources| == |tailers|
  {
    LeftOf(sources, tailers, |tailers|)
  }

  function LeftOf(sources: seq<Source>, tailers: seq<Tailer>, n: nat): nat
    requires n <= |sources| == |tailers|
  {
    if n == 0 then 0
    else
      var t, all := tailers[n - 1], |Script(sources, n - 1)|;
      LeftOf(sources, tailers, n - 1) + (if t.sent < all then all - t.sent else 0) + (if t.ended then 0 else 1)
  }

  lemma {:induction false} OneLess(sources: seq<Source>, tailers: seq<Tailer>, i: nat, t: Tailer, n: nat)
    requires i < |sources| == |tailers| && n <= |sources|
    requires !tailers[i].ended && t.sent <= |Script(sources, i)|
    requires t == Tailer(tailers[i].sent + 1, false) || t == Tailer(tailers[i].sent, true)
    ensures LeftOf(sources, tailers[i := t], n) == LeftOf(sources, tailers, n) - if i < n then 1 else 0
  {
    if n > 0 {
      OneLess(sources, tailers, i, t, n - 1);
    }
  }

  /** A task puts its next entry. */
  lemma PutKeeps(sources: seq<Source>, tailers: seq<Tailer>, count: int, trace: seq<Entry>, i: nat, e: Entry)
    requires Draining(sources, tailers, count, trace) && i < |sources| && !tailers[i].ended
    requires tailers[i].sent < |Script(sources, i)| && e == Script(sources, i)[tailers[i].sent]
    ensures Draining(sources, tailers[i := tailers[i].(sent := tailers[i].sent + 1)], count, trace + [e])
  {
    var tailers' := tailers[i := tailers[i].(sent := tailers[i].sent + 1)];
    assert TailerOk(sources, tailers, trace, i);
    assert i in Alive(tailers) && Alive(tailers') == Alive(tailers);
    forall j | 0 <= j < |sources| ensures TailerOk(sources, tailers', trace + [e], j) {
      assert TailerOk(sources, tailers, trace, j);
      OfAppend(trace, e, j);
    }
  }

  /** A task leaves, and puts the end marker if it is the last. */
  lemma ExitKeeps(sources: seq<Source>, tailers: seq<Tailer>, count: int, trace: seq<Entry>, i: nat)
    requires Draining(sources, tailers, count, trace) && i < |sources| && !tailers[i].ended
    requires tailers[i].sent == |Script(sources, i)|
    ensures Draining(sources, tailers[i := tailers[i].(ended := true)], count - 1,
                     trace + if count - 1 == 0 then [Done] else [])
  {
    var tailers' := tailers[i := tailers[i].(ended := true)];
    var trace' := trace + if count - 1 == 0 then [Done] else [];
    assert Alive(tailers') == Alive(tailers) - {i} && i in Alive(tailers);
    assert trace + [] == trace;
    forall j | 0 <= j < |sources| ensures TailerOk(sources, tailers', trace', j) {
      assert TailerOk(sources, tailers, trace, j);
      OfAppend(trace, Done, j);
    }
  }

  /** The next step of the task that drains source `i`. */
  method TailerStep(sources: seq<Source>, tailers: seq<Tailer>, count: int, i: nat, ghost trace: seq<Entry>)
    returns (tailers': seq<Tailer>, count': int, puts: seq<Entry>)
    requires Draining(sources, tailers, count, trace) && i < |sources| && !tailers[i].ended
    ensures Draining(sources, tailers', count', trace + puts) && |puts| <= 1
    ensures Left(sources, tailers') == Left(sources, tailers) - 1
  {
    var t, source := tailers[i], sources[i];
    assert TailerOk(sources, tailers, trace, i);
    if t.sent < |source.items| {
      puts := [Item(i, source.items[t.sent])];
      tailers', count' := tailers[i := t.(sent := t.sent + 1)], count;
      PutKeeps(sources, tailers, count, trace, i, puts[0]);
    } else if t.sent == |source.items| && source.error.Some? {
      puts := [Failure(i, source.error.value)];
      tailers', count' := tailers[i := t.(sent := t.sent + 1)], count;
      PutKeeps(sources, tailers, count, trace, i, puts[0]);
    } else {
      ExitKeeps(sources, tailers, count, trace, i);
      tailers', count' := tailers[i := t.(ended := true)], count - 1;
      puts := if count' == 0 then [Done] else [];
    }
    OneLess(sources, tailers, i, tailers'[i], |sources|);
  }

  /** All that the consumer can do next is done: the sources ended, and their entries are all there. */
  lemma AllThere(sources: seq<Source>, tailers: seq<Tailer>, count: int, trace: seq<Entry>, i: nat)
    requires Draining(sources, tailers, count, trace) && i < |sources| && Alive(tailers) == {}
    ensures Of(trace[..|trace| - 1], i) == Script(sources, i)
  {
    assert i !in Alive(tailers) && TailerOk(sources, tailers, trace, i);
    assert Script(sources, i)[..|Script(sources, i)|] == Script(sources, i);
    assert trace == trace[..|trace| - 1] + [trace[|trace| - 1]];
    OfAppend(trace[..|trace| - 1], Done, i);
  }

  /** What was yielded before the first exception: a prefix of each source, all items of the one that failed. */
  lemma BeforeFailure(sources: seq<Source>, tailers: seq<Tailer>, count: int, trace: seq<Entry>, n: nat, i: nat)
    requires Draining(sources, tailers, count, trace) && n < |trace| && trace[n].Failure? && i < |sources|
    requires forall j | 0 <= j < n :: trace[j].Item?
    ensures trace[n].source < |sources|
    ensures Of(trace[..n], i) <= Items(sources, i)
    ensures i == trace[n].source ==> Of(trace[..n], i) == Items(sources, i)
  {
    assert trace[n] in trace;
    assert TailerOk(sources, tailers, trace, i);
    OfPrefix(trace, n, i);
    OfPrefix(trace, n + 1, i);
    assert trace[..n + 1] == trace[..n] + [trace[n]];
    OfAppend(trace[..n], trace[n], i);
    OnlyItems(trace[..n], i);
    var found, more := Of(trace[..n], i), Of(trace[..n + 1], i);
    assert Of(trace, i) <= Script(sources, i);
    ItemsFirst(sources, i, found);
    if i == trace[n].source {
      assert more == found + [trace[n]];
      FailureLast(sources, i, found, trace[n]);
    }
  }

  /** In a script the items come first, and then the exception. */
  lemma ItemsFirst(sources: seq<Source>, i: nat, found: seq<Entry>)
    requires i < |sources| && found <= Script(sources, i)
    requires forall j | 0 <= j < |found| :: found[j].Item?
    ensures found <= Items(sources, i)
  {
    var script := Script(sources, i);
    assert forall j | 0 <= j < |found| :: found[j] == script[j];
    assert forall j | 0 <= j < |script| :: script[j].Item? <==> j < |Items(sources, i)|;
    if found != [] {
      assert script[|found| - 1].Item?;
    }
  }

  lemma FailureLast(sources: seq<Source>, i: nat, found: seq<Entry>, e: Entry)
    requires i < |sources| && found <= Items(sources, i) && found + [e] <= Script(sources, i) && e.Failure?
    ensures found == Items(sources, i)
  {
    var script := Script(sources, i);
    assert script[|found|] == (found + [e])[|found|];
    assert forall j | 0 <= j < |Items(sources, i)| :: script[j].Item?;
  }

  lemma {:induction false} OnlyItems(log: seq<Entry>, i: nat)
    requires forall j | 0 <= j < |log| :: log[j].Item?
    ensures forall j | 0 <= j < |Of(log, i)| :: Of(log, i)[j].Item?
  {
    if log != [] {
      OnlyItems(log[..|log| - 1], i);
    }
  }

  lemma Begin(sources: seq<Source>, tailers: seq<Tailer>)
    requires sources != [] && tailers == seq(|sources|, _ => Tailer(0, false))
    ensures Draining(sources, tailers, |sources|, [])
  {
    assert 0 in Alive(tailers);
    Everyone(|sources|, Alive(tailers));
    forall i | 0 <= i < |sources| ensures TailerOk(sources, tailers, [], i) {
    }
  }

  lemma {:induction false} Everyone(n: nat, all: set<nat>)
    requires forall i: nat :: i in all <==> i < n
    ensures |all| == n
  {
    if n > 0 {
      Everyone(n - 1, all - {n - 1});
    } else {
      assert all == {};
    }
  }

  /** The consumer never waits for nothing. */
  lemma SomeoneMoves(sources: seq<Source>, tailers: seq<Tailer>, count: int, trace: seq<Entry>, yielded: seq<Entry>,
                     queue: seq<Entry>)
    requires Draining(sources, tailers, count, trace) && trace == yielded + queue && Done !in yielded
    ensures queue != [] || exists i: nat :: i < |tailers| && !tailers[i].ended
  {
    if i :| i in Alive(tailers) {
      assert i < |tailers| && !tailers[i].ended;
    } else {
      assert forall j | 0 <= j < |yielded| :: trace[j] in yielded;
      assert trace[|trace| - 1] == Done;
    }
  }

  /** The end marker was reached. */
  lemma Complete(sources: seq<Source>, tailers: seq<Tailer>, count: int, trace: seq<Entry>, n: nat)
    requires Draining(sources, tailers, count, trace) && n < |trace| && trace[n].Done?
    ensures n == |trace| - 1 && trace == trace[..n] + [Done] && Done !in trace[..n]
    ensures Shares(sources, trace[..n], None)
    ensures forall i | 0 <= i < |sources| && sources[i].error.Some? ::
              Failure(i, sources[i].error.value) in trace[..n]
  {
    assert Alive(tailers) == {};
    forall i | 0 <= i < |sources|
      ensures Share(sources, trace[..n], i, None)
      ensures sources[i].error.Some? ==> Failure(i, sources[i].error.value) in trace[..n]
    {
      AllThere(sources, tailers, count, trace, i);
      if sources[i].error.Some? {
        assert Script(sources, i)[|sources[i].items|] == Failure(i, sources[i].error.value);
        OfWithin(trace[..n], i, Failure(i, sources[i].error.value));
      }
    }
  }

  lemma {:induction false} OfWithin(log: seq<Entry>, i: nat, e: Entry)
    ensures e in Of(log, i) <==> e in log && !e.Done? && e.source == i
  {
    if log != [] {
      OfWithin(log[..|log| - 1], i, e);
      assert log == log[..|log| - 1] + [log[|log| - 1]];
    }
  }

  /** The first exception was reached. */
  lemma FailFast(sources: seq<Source>, tailers: seq<Tailer>, count: int, trace: seq<Entry>, n: nat)
    requires Draining(sources, tailers, count, trace) && n < |trace| && trace[n].Failure?
    requires forall j | 0 <= j < n :: trace[j].Item?
    ensures trace[n].source < |sources| && sources[trace[n].source].error == Some(trace[n].error)
    ensures Shares(sources, trace[..n], Some(trace[n].source))
  {
    var failed := trace[n].source;
    assert trace[n] in trace;
    assert TailerOk(sources, tailers, trace, failed);
    OfWithin(trace, failed, trace[n]);
    forall i | 0 <= i < |sources|
      ensures Share(sources, trace[..n], i, Some(failed))
    {
      BeforeFailure(sources, tailers, count, trace, n, i);
    }
  }

  /** The shares, entry by entry. */
  lemma SharesMean(sources: seq<Source>, log: seq<Entry>, failed: Option<nat>)
    requires Shares(sources, log, failed)
    ensures failed.None? ==> forall i | 0 <= i < |sources| ::
              var own, source := Of(log, i), sources[i];
              && |own| == |source.items| + (if source.error.Some? then 1 else 0)
              && (forall k | 0 <= k < |source.items| :: own[k] == Item(i, source.items[k]))
              && (source.error.Some? ==> own[|source.items|] == Failure(i, source.error.value))
    ensures failed.Some? ==> forall i | 0 <= i < |sources| ::
              var own, source := Of(log, i), sources[i];
              && |own| <= |source.items|
              && (forall k | 0 <= k < |own| :: own[k] == Item(i, source.items[k]))
              && (i == failed.value ==> |own| == |source.items|)
  {
    forall i | 0 <= i < |sources|
      ensures Share(sources, log, i, failed)
      ensures failed.Some? ==> forall k | 0 <= k < |Of(log, i)| :: Of(log, i)[k] == Items(sources, i)[k]
    {
      assert Share(sources, log, i, failed);
    }
  }

  /**
   For every interleaving of the tasks with the consumer. `trace` is all that was put on the queue and
   `yielded` all that the consumer yielded. Either nothing is raised: then the end marker was put once
   and last, and from each source exactly its script was yielded, in order. Or the first exception is
   raised, after exactly the values put before it.
   */
  method AsGenerated(sources: seq<Source>, returnExceptions: bool)
    returns (yielded: seq<Entry>, raised: Option<Value>, trace: seq<Entry>)
    ensures FromSources(sources, yielded) && Done !in yielded
    ensures raised.None? ==>
      && trace == yielded + (if sources == [] then [] else [Done])
      && Shares(sources, yielded, None)
    ensures raised.None? <==> returnExceptions || forall i | 0 <= i < |sources| :: sources[i].error.None?
    ensures raised.Some? ==>
      && yielded < trace
      && (forall j | 0 <= j < |yielded| :: yielded[j].Item?)
      && trace[|yielded|].Failure? && trace[|yielded|].error == raised.value
      && var failed := trace[|yielded|].source;
         && failed < |sources| && sources[failed].error == Some(raised.value)
         && Shares(sources, yielded, Some(failed))
    ensures raised.None? ==> forall i | 0 <= i < |sources| ::
              var own, source := Of(yielded, i), sources[i];
              && |own| == |source.items| + (if source.error.Some? then 1 else 0)
              && (forall k | 0 <= k < |source.items| :: own[k] == Item(i, source.items[k]))
              && (source.error.Some? ==> own[|source.items|] == Failure(i, source.error.value))
    ensures raised.Some? ==> forall i | 0 <= i < |sources| ::
              var own, source := Of(yielded, i), sources[i];
              && |own| <= |source.items|
              && (forall k | 0 <= k < |own| :: own[k] == Item(i, source.items[k]))
              && (i == trace[|yielded|].source ==> |own| == |source.items|)
  {
    var queue: seq<Entry>;
    yielded, raised, trace, queue := [], None, [], [];
    if sources == [] {
      return;
    }
    var tailers := seq(|sources|, _ => Tailer(0, false));
    var tailerCount := |sources|;
    Begin(sources, tailers);
    while true
      invariant Draining(sources, tailers, tailerCount, trace)
      invariant trace == yielded + queue && Done !in yielded
      invariant returnExceptions || forall j | 0 <= j < |yielded| :: yielded[j].Item?
      decreases 2 * Left(sources, tailers) + |queue|
    {
      SomeoneMoves(sources, tailers, tailerCount, trace, yielded, queue);
      if {
        case exists i: nat :: i < |tailers| && !tailers[i].ended =>
          var i: nat :| i < |tailers| && !tailers[i].ended;
          var puts;
          tailers, tailerCount, puts := TailerStep(sources, tailers, tailerCount, i, trace);
          queue, trace := queue + puts, trace + puts;
        case queue != [] =>
          var entry := queue[0];
          assert trace[|yielded|] == entry && trace[..|yielded|] == yielded;
          match entry
          case Item(_, _) =>
            yielded, queue := yielded + [entry], queue[1..];
          case Failure(source, error) =>
            if !returnExceptions {
              FailFast(sources, tailers, tailerCount, trace, |yielded|);
              SharesMean(sources, yielded, Some(source));
              return yielded, Some(error), trace;
            }
            yielded, queue := yielded + [entry], queue[1..];
          case Done =>
            Complete(sources, tailers, tailerCount, trace, |yielded|);
            SharesMean(sources, yielded, None);
            return;
      }
    }
  }
}
