/**
 How a session chooses among its receivers: the first one in key order with a
 non-empty backlog is served, one message at a time.
 */
module Scheduling {
  import opened Prelude
  import opened Packets
  import opened Broadcast
  import opened Order

  type Wires = seq<Wire<PublishPacket>>
  type Receivers = map<Topic, Receiver>

  /** The keys are those of the map and every receiver has a wire. */
  ghost predicate Covers(keys: seq<Topic>, m: Receivers, wires: Wires) {
    forall k <- keys :: k in m && m[k].wire < |wires|
  }

  function Waiting(k: Topic, m: Receivers, wires: Wires): nat
    requires k in m && m[k].wire < |wires|
  {
    Backlog(wires[m[k].wire], m[k].next)
  }

  /** Every receiver reads an existing wire, and none has anything to receive. */
  ghost predicate NoneReady(m: Receivers, wires: Wires) {
    forall k <- m :: m[k].wire < |wires| && Waiting(k, m, wires) == 0
  }

  /** Topic `t` has something to receive, and no topic before it has. */
  ghost predicate LeastReady(t: Topic, m: Receivers, wires: Wires) {
    && t in m && m[t].wire < |wires| && Waiting(t, m, wires) > 0
    && forall k <- m :: m[k].wire < |wires| && Waiting(k, m, wires) > 0 ==> k == t || Less(t, k)
  }

  /** The first key with something to receive. */
  function FirstReady(keys: seq<Topic>, m: Receivers, wires: Wires): Option<Topic>
    requires Covers(keys, m, wires)
  {
    if keys == [] then None
    else if Waiting(keys[0], m, wires) > 0 then Some(keys[0])
    else FirstReady(keys[1..], m, wires)
  }

  /** The search of the receiver future over the receivers in key order. */
  method Poll(keys: seq<Topic>, m: Receivers, wires: Wires) returns (ready: Option<Topic>)
    requires Covers(keys, m, wires)
    ensures ready == FirstReady(keys, m, wires)
    ensures ready.None? <==> forall k <- keys :: Waiting(k, m, wires) == 0
    ensures ready.Some? ==> ready.value in keys && Waiting(ready.value, m, wires) > 0
    ensures ready.Some? && Ascending(keys) ==>
              forall k <- keys :: Waiting(k, m, wires) > 0 ==> k == ready.value || Less(ready.value, k)
  {
    var i := 0;
    while i < |keys|
      invariant 0 <= i <= |keys|
      invariant FirstReady(keys, m, wires) == FirstReady(keys[i..], m, wires)
      invariant forall j :: 0 <= j < i ==> Waiting(keys[j], m, wires) == 0
    {
      if Waiting(keys[i], m, wires) > 0 {
        return Some(keys[i]);
      }
      assert keys[i..][1..] == keys[i + 1..];
      i := i + 1;
    }
    ready := None;
  }

  function Total(keys: seq<Topic>, m: Receivers, wires: Wires): nat
    requires Covers(keys, m, wires)
  {
    if keys == [] then 0 else Waiting(keys[0], m, wires) + Total(keys[1..], m, wires)
  }

  /** The receivers after topic `t` was served once. */
  function Served(t: Topic, m: Receivers, wires: Wires): Receivers
    requires t in m && m[t].wire < |wires|
  {
    m[t := m[t].(next := Recv(wires[m[t].wire], m[t].next).1)]
  }

  /** A ready receive never blocks, and serving shrinks the backlog. */
  lemma ServingShrinks(t: Topic, m: Receivers, wires: Wires)
    requires t in m && m[t].wire < |wires| && Waiting(t, m, wires) > 0
    ensures !Recv(wires[m[t].wire], m[t].next).0.Pending?
    ensures Waiting(t, Served(t, m, wires), wires) < Waiting(t, m, wires)
  {
  }

  lemma {:induction false} TotalShrinks(keys: seq<Topic>, m: Receivers, wires: Wires, t: Topic)
    requires Covers(keys, m, wires) && t in m && m[t].wire < |wires| && Waiting(t, m, wires) > 0
    ensures Covers(keys, Served(t, m, wires), wires)
    ensures Total(keys, Served(t, m, wires), wires) <= Total(keys, m, wires)
    ensures t in keys ==> Total(keys, Served(t, m, wires), wires) < Total(keys, m, wires)
  {
    ServingShrinks(t, m, wires);
    if keys != [] {
      assert t in keys && t != keys[0] ==> t in keys[1..];
      TotalShrinks(keys[1..], m, wires, t);
    }
  }

  lemma {:induction false} FirstReadyFound(keys: seq<Topic>, m: Receivers, wires: Wires)
    requires Covers(keys, m, wires) && FirstReady(keys, m, wires).Some?
    ensures var t := FirstReady(keys, m, wires).value; t in keys && Waiting(t, m, wires) > 0
  {
    if Waiting(keys[0], m, wires) == 0 {
      FirstReadyFound(keys[1..], m, wires);
    }
  }

  /** Everything a session receives until no receiver is ready, if nothing more is published. */
  ghost function Serve(keys: seq<Topic>, m: Receivers, wires: Wires): seq<(Topic, Received<PublishPacket>)>
    requires Covers(keys, m, wires)
    decreases Total(keys, m, wires)
  {
    match FirstReady(keys, m, wires)
    case None => []
    case Some(t) =>
      FirstReadyFound(keys, m, wires);
      TotalShrinks(keys, m, wires, t);
      [(t, Recv(wires[m[t].wire], m[t].next).0)] + Serve(keys, Served(t, m, wires), wires)
  }

  function Tagged(t: Topic, rs: seq<Received<PublishPacket>>): seq<(Topic, Received<PublishPacket>)> {
    if rs == [] then [] else [(t, rs[0])] + Tagged(t, rs[1..])
  }

  /** Each topic drained completely, one after the other. */
  function DrainedInOrder(keys: seq<Topic>, m: Receivers, wires: Wires): seq<(Topic, Received<PublishPacket>)>
    requires Covers(keys, m, wires)
  {
    if keys == [] then []
    else Tagged(keys[0], DrainTrace(wires[m[keys[0]].wire], m[keys[0]].next)) + DrainedInOrder(keys[1..], m, wires)
  }

  lemma {:induction false} DrainFrame(keys: seq<Topic>, m: Receivers, m': Receivers, wires: Wires)
    requires Covers(keys, m, wires) && Covers(keys, m', wires)
    requires forall k <- keys :: m'[k] == m[k]
    ensures DrainedInOrder(keys, m', wires) == DrainedInOrder(keys, m, wires)
  {
    if keys != [] {
      DrainFrame(keys[1..], m, m', wires);
    }
  }

  lemma TaggedDrain(t: Topic, w: Wire<PublishPacket>, next: nat)
    requires Backlog(w, next) > 0
    ensures Tagged(t, DrainTrace(w, next)) == [(t, Recv(w, next).0)] + Tagged(t, DrainTrace(w, Recv(w, next).1))
  {
    var rest := DrainTrace(w, Recv(w, next).1);
    assert DrainTrace(w, next) == [Recv(w, next).0] + rest;
    assert ([Recv(w, next).0] + rest)[1..] == rest;
  }

  ghost predicate Unrepeated(keys: seq<Topic>) {
    forall i, j :: 0 <= i < j < |keys| ==> keys[i] != keys[j]
  }

  lemma AscendingUnrepeated(keys: seq<Topic>)
    requires Ascending(keys)
    ensures Unrepeated(keys)
  {
    forall i, j | 0 <= i < j < |keys| ensures keys[i] != keys[j] {
      LessTotal(keys[i], keys[j]);
    }
  }

  lemma DrainStepHead(keys: seq<Topic>, m: Receivers, wires: Wires)
    requires Covers(keys, m, wires) && Unrepeated(keys) && keys != [] && Waiting(keys[0], m, wires) > 0
    requires Covers(keys, Served(keys[0], m, wires), wires)
    ensures DrainedInOrder(keys, m, wires) ==
            [(keys[0], Recv(wires[m[keys[0]].wire], m[keys[0]].next).0)] +
            DrainedInOrder(keys, Served(keys[0], m, wires), wires)
  {
    var t, rest := keys[0], keys[1..];
    var w, next := wires[m[t].wire], m[t].next;
    assert forall k <- rest :: k != t;
    DrainFrame(rest, m, Served(t, m, wires), wires);
    TaggedDrain(t, w, next);
    Reassociate([(t, Recv(w, next).0)], Tagged(t, DrainTrace(w, Recv(w, next).1)), DrainedInOrder(rest, m, wires));
  }

  lemma EmptyDrain(t: Topic, w: Wire<PublishPacket>, next: nat)
    requires Backlog(w, next) == 0
    ensures Tagged(t, DrainTrace(w, next)) == []
  {
  }

  /** An empty topic at the front drains to nothing. */
  lemma DrainSkip(keys: seq<Topic>, m: Receivers, wires: Wires)
    requires Covers(keys, m, wires) && keys != [] && Waiting(keys[0], m, wires) == 0
    ensures DrainedInOrder(keys, m, wires) == DrainedInOrder(keys[1..], m, wires)
  {
    EmptyDrain(keys[0], wires[m[keys[0]].wire], m[keys[0]].next);
    var rest := DrainedInOrder(keys[1..], m, wires);
    assert [] + rest == rest;
  }

  lemma {:induction false} DrainStep(keys: seq<Topic>, m: Receivers, wires: Wires, t: Topic)
    requires Covers(keys, m, wires) && Unrepeated(keys) && FirstReady(keys, m, wires) == Some(t)
    ensures t in keys && Covers(keys, Served(t, m, wires), wires)
    ensures DrainedInOrder(keys, m, wires) ==
            [(t, Recv(wires[m[t].wire], m[t].next).0)] + DrainedInOrder(keys, Served(t, m, wires), wires)
  {
    FirstReadyFound(keys, m, wires);
    if Waiting(keys[0], m, wires) > 0 {
      DrainStepHead(keys, m, wires);
    } else {
      DrainStep(keys[1..], m, wires, t);
      DrainSkip(keys, m, wires);
      DrainSkip(keys, Served(t, m, wires), wires);
    }
  }

  lemma {:induction false} NothingReady(keys: seq<Topic>, m: Receivers, wires: Wires)
    requires Covers(keys, m, wires) && FirstReady(keys, m, wires).None?
    ensures DrainedInOrder(keys, m, wires) == []
  {
    if keys != [] {
      NothingReady(keys[1..], m, wires);
    }
  }

  /**
   Without new publishes a session empties its receivers completely, topic by topic in key order:
   serving the least ready topic each time is the same as draining every topic in turn.
   */
  lemma {:induction false} ServeInKeyOrder(keys: seq<Topic>, m: Receivers, wires: Wires)
    requires Covers(keys, m, wires) && Ascending(keys)
    ensures Serve(keys, m, wires) == DrainedInOrder(keys, m, wires)
    decreases Total(keys, m, wires)
  {
    match FirstReady(keys, m, wires) {
      case None => NothingReady(keys, m, wires);
      case Some(t) =>
        AscendingUnrepeated(keys);
        DrainStep(keys, m, wires, t);
        FirstReadyFound(keys, m, wires);
        TotalShrinks(keys, m, wires, t);
        ServeInKeyOrder(keys, Served(t, m, wires), wires);
    }
  }
}
