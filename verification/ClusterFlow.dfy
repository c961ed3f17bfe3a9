/**
 Nothing gets lost inside a broker, whatever kind of message it is: what its clients publish is in hand, queued or on
 the bus, and what the bus brings it is waiting or applied, in order and without a gap.
 */
module ClusterFlow {
  import opened Prelude
  import opened Packets
  import opened Cluster
  import opened ClusterOnce

  /** A message of a client, applied and on its way to the bus. */
  ghost predicate OnItsWay(n: Node, s: nat) {
    || (exists w <- n.hands :: n.hands[w].serial == s)
    || (exists i :: 0 <= i < |n.queue| && n.queue[i].serial == s)
  }

  // What clients publish.

  lemma StepKeepsOnItsWay(n: Node, e: Event, s: nat, m: Msg)
    requires OnItsWay(n, s)
    requires (e.Apply? ==> m.writer !in n.hands) && (e.Enqueue? ==> e.writer in n.hands)
    requires e.Publish? ==> n.queue != []
    ensures e.Apply? ==> OnItsWay(ApplyNode(n, m), s)
    ensures e.Enqueue? ==> OnItsWay(EnqueueNode(n, e.writer), s)
    ensures e.Publish? ==> OnItsWay(SentNode(n), s) || s == n.queue[0].serial
  {
    if w :| w in n.hands && n.hands[w].serial == s {
      if e.Apply? { assert ApplyNode(n, m).hands[w].serial == s; }
      if e.Enqueue? {
        var n' := EnqueueNode(n, e.writer);
        if w == e.writer { assert n'.queue[|n.queue|].serial == s; } else { assert n'.hands[w].serial == s; }
      }
      if e.Publish? { assert SentNode(n).hands[w].serial == s; }
    } else {
      var i :| 0 <= i < |n.queue| && n.queue[i].serial == s;
      if e.Apply? { assert ApplyNode(n, m).queue[i].serial == s; }
      if e.Enqueue? { assert EnqueueNode(n, e.writer).queue[i].serial == s; }
      if e.Publish? && i > 0 { assert SentNode(n).queue[i - 1].serial == s; }
    }
  }

  lemma OwnStep(c: Cluster, e: Event, s: nat)
    requires Enabled(c, e) && s < |c.log| && Up(Step(c, e), c.log[s].sender)
    requires Up(c, c.log[s].sender) && (s in c.published || OnItsWay(c.nodes[c.log[s].sender], s))
    ensures s in Step(c, e).published || OnItsWay(Step(c, e).nodes[c.log[s].sender], s)
  {
    var b := c.log[s].sender;
    var n, n' := c.nodes[b], Step(c, e).nodes[b];
    if s !in c.published {
      if e.node == b && (e.Apply? || e.Enqueue? || e.Publish?) {
        StepKeepsOnItsWay(n, e, s, if e.Apply? then NewMsg(c, e) else Msg(0, 0, 0, "", [], false));
        if e.Publish? { assert n'.hands == SentNode(n).hands && n'.queue == SentNode(n).queue; }
      } else {
        assert n'.hands == n.hands && n'.queue == n.queue;
      }
    }
  }

  lemma NewIsOnItsWay(c: Cluster, e: Event)
    requires Enabled(c, e) && e.Apply?
    ensures OnItsWay(Step(c, e).nodes[e.node], |c.log|)
  {
    assert Step(c, e).nodes[e.node].hands[e.writer].serial == |c.log|;
  }

  /** A broker that listens and has applied something was listening before. */
  lemma WasUp(c: Cluster, e: Event, b: nat)
    requires Enabled(c, e) && Up(Step(c, e), b)
    requires b in c.nodes && c.nodes[b].applied != [] && IdleUnlessListening(c.nodes[b])
    ensures Up(c, b)
  {
  }

  lemma HasApplied(n: Node, b: nat, log: seq<Msg>, published: set<nat>, s: nat)
    requires AppliedOk(n, b, log, published) && s < |log| && log[s].sender == b
    ensures n.applied != []
  {
    assert s in n.applied;
  }

  /** The node's part of the invariant in a run. */
  lemma NodeOfRun(es: seq<Event>, b: nat)
    requires Runs(es) && b in After(es).nodes
    ensures NodeOk(After(es).nodes[b], b, After(es).log, After(es).published)
  {
    RunKeepsInv(es);
  }

  lemma SenderIsThere(es: seq<Event>, s: nat)
    requires Runs(es) && s < |After(es).log|
    ensures After(es).log[s].sender in After(es).nodes
  {
    RunKeepsInv(es);
  }

  /**
   In every run, whatever a client published at a broker that is still up is in a session's hand, in the queue, or was
   published on the bus; retained or not, none is ever skipped.
   */
  lemma {:induction false} PublishesFlow(es: seq<Event>, s: nat)
    requires Runs(es) && s < |After(es).log| && Up(After(es), After(es).log[s].sender)
    ensures s in After(es).published || OnItsWay(After(es).nodes[After(es).log[s].sender], s)
  {
    var init, last := es[..|es| - 1], es[|es| - 1];
    var c := After(init);
    if s == |c.log| {
      NewIsOnItsWay(c, last);
    } else {
      var b := c.log[s].sender;
      SenderIsThere(init, s);
      assert Up(c, b) by {
        NodeOfRun(init, b);
        HasApplied(c.nodes[b], b, c.log, c.published, s);
        WasUp(c, last, b);
      }
      PublishesFlow(init, s);
      OwnStep(c, last, s);
    }
  }

  // What the bus brings.

  /** What one step brings to broker `b` over the bus. */
  ghost function Brought(c: Cluster, e: Event, b: nat): seq<Msg>
    requires Enabled(c, e)
  {
    if e.Publish? && b in e.delivered && Up(c, b) then [c.nodes[e.node].queue[0]] else []
  }

  /** The messages that reached broker `b` over the bus, in order. */
  ghost function Reached(es: seq<Event>, b: nat): seq<Msg>
    requires Runs(es)
  {
    if es == [] then []
    else
      var init, last := es[..|es| - 1], es[|es| - 1];
      Reached(init, b) + Brought(After(init), last, b)
  }

  /** The serial number of a message of another broker. */
  function ForeignSerial(b: nat): Msg -> seq<nat> {
    (m: Msg) => if m.sender != b then [m.serial] else []
  }

  /** The serial numbers of the applied messages of other brokers. */
  function AppliedForeign(log: seq<Msg>, b: nat): nat -> seq<nat> {
    (s: nat) => if s < |log| && log[s].sender != b then [s] else []
  }

  /** Foreign messages applied, and then those waiting. */
  ghost function TakenAndWaiting(n: Node, b: nat, log: seq<Msg>): seq<nat> {
    Flat(n.applied, AppliedForeign(log, b)) + Flat(n.inbox, ForeignSerial(b))
  }

  lemma FlatOne<S, T>(x: S, f: S -> seq<T>)
    ensures Flat([x], f) == f(x)
  {
    assert [x][..0] == [];
  }

  lemma {:induction false} LogGrows(applied: seq<nat>, log: seq<Msg>, m: Msg, b: nat)
    requires forall i :: 0 <= i < |applied| ==> applied[i] < |log|
    ensures Flat(applied, AppliedForeign(log + [m], b)) == Flat(applied, AppliedForeign(log, b))
  {
    if applied != [] {
      LogGrows(applied[..|applied| - 1], log, m, b);
    }
  }

  lemma ApplyTakes(n: Node, m: Msg, b: nat, log: seq<Msg>)
    requires forall i :: 0 <= i < |n.applied| ==> n.applied[i] < |log|
    requires m.sender == b && m.serial == |log|
    ensures TakenAndWaiting(ApplyNode(n, m), b, log + [m]) == TakenAndWaiting(n, b, log)
  {
    var own := AppliedForeign(log + [m], b);
    FlatConcat(n.applied, [m.serial], own);
    FlatOne(m.serial, own);
    assert own(m.serial) == [];
    LogGrows(n.applied, log, m, b);
    assert Flat(ApplyNode(n, m).applied, own) == Flat(n.applied, AppliedForeign(log, b));
  }

  lemma ReachTakes(n: Node, m: Msg, b: nat, log: seq<Msg>)
    ensures TakenAndWaiting(ReachedNode(n, m), b, log) == TakenAndWaiting(n, b, log) + ForeignSerial(b)(m)
  {
    FlatConcat(n.inbox, [m], ForeignSerial(b));
    FlatOne(m, ForeignSerial(b));
  }

  /** Receiving a foreign message applies it, whatever its kind; an own one is dropped. */
  lemma ReceiveApplies(n: Node, b: nat)
    requires n.inbox != []
    ensures ReceiveNode(n, b).inbox == n.inbox[1..]
    ensures ReceiveNode(n, b).applied == n.applied + if n.inbox[0].sender != b then [n.inbox[0].serial] else []
  {
  }

  lemma ReceiveTakes(n: Node, b: nat, log: seq<Msg>)
    requires n.inbox != [] && n.inbox[0].serial < |log| && log[n.inbox[0].serial] == n.inbox[0]
    ensures TakenAndWaiting(ReceiveNode(n, b), b, log) == TakenAndWaiting(n, b, log)
  {
    var m := n.inbox[0];
    ReceiveApplies(n, b);
    FlatConcat([m], n.inbox[1..], ForeignSerial(b));
    FlatOne(m, ForeignSerial(b));
    assert [m] + n.inbox[1..] == n.inbox;
    FlatConcat(n.applied, ForeignSerial(b)(m), AppliedForeign(log, b));
    if m.sender != b { FlatOne(m.serial, AppliedForeign(log, b)); }
    Reassociate(Flat(n.applied, AppliedForeign(log, b)), ForeignSerial(b)(m), Flat(n.inbox[1..], ForeignSerial(b)));
  }

  lemma BroughtStep(c: Cluster, e: Event, b: nat, before: seq<Msg>)
    requires Enabled(c, e)
    ensures Flat(before + Brought(c, e, b), ForeignSerial(b)) ==
            Flat(before, ForeignSerial(b)) + Flat(Brought(c, e, b), ForeignSerial(b))
  {
    FlatConcat(before, Brought(c, e, b), ForeignSerial(b));
  }

  lemma ApplyStepTakes(c: Cluster, e: Event, b: nat)
    requires Enabled(c, e) && b in c.nodes && e.Apply? && AppliedOk(c.nodes[b], b, c.log, c.published)
    ensures TakenAndWaiting(Step(c, e).nodes[b], b, Step(c, e).log) == TakenAndWaiting(c.nodes[b], b, c.log)
  {
    var n := c.nodes[b];
    if e.node == b {
      ApplyTakes(n, NewMsg(c, e), b, c.log);
    } else {
      LogGrows(n.applied, c.log, NewMsg(c, e), b);
    }
  }

  lemma PublishStepTakes(c: Cluster, e: Event, b: nat)
    requires Enabled(c, e) && b in c.nodes && e.Publish?
    ensures TakenAndWaiting(Step(c, e).nodes[b], b, c.log) ==
            TakenAndWaiting(c.nodes[b], b, c.log) + Flat(Brought(c, e, b), ForeignSerial(b))
  {
    var n, m := c.nodes[b], c.nodes[e.node].queue[0];
    var sent := if b == e.node then SentNode(n) else n;
    assert TakenAndWaiting(sent, b, c.log) == TakenAndWaiting(n, b, c.log);
    if b in e.delivered && Up(c, b) {
      assert Step(c, e).nodes[b] == ReachedNode(sent, m);
      ReachTakes(sent, m, b, c.log);
      FlatOne(m, ForeignSerial(b));
    } else {
      assert Step(c, e).nodes[b] == sent;
    }
  }

  lemma ReceiveStepTakes(c: Cluster, e: Event, b: nat)
    requires Enabled(c, e) && b in c.nodes && e.Receive? && InboxOk(c.nodes[b], b, c.log, c.published)
    ensures TakenAndWaiting(Step(c, e).nodes[b], b, c.log) == TakenAndWaiting(c.nodes[b], b, c.log)
  {
    if e.node == b {
      assert Logged(c.nodes[b].inbox[0], c.log);
      ReceiveTakes(c.nodes[b], b, c.log);
    }
  }

  /** What one step adds to what a broker has taken and has waiting. */
  lemma StepTakes(c: Cluster, e: Event, b: nat)
    requires Enabled(c, e) && b in c.nodes && b in Step(c, e).nodes && !Step(c, e).nodes[b].phase.Down?
    requires AppliedOk(c.nodes[b], b, c.log, c.published) && InboxOk(c.nodes[b], b, c.log, c.published)
    ensures TakenAndWaiting(Step(c, e).nodes[b], b, Step(c, e).log) ==
            TakenAndWaiting(c.nodes[b], b, c.log) + Flat(Brought(c, e, b), ForeignSerial(b))
  {
    if e.Apply? {
      ApplyStepTakes(c, e, b);
    } else if e.Receive? {
      ReceiveStepTakes(c, e, b);
    } else if e.Publish? {
      PublishStepTakes(c, e, b);
    } else {
      assert Step(c, e).nodes[b].applied == c.nodes[b].applied && Step(c, e).nodes[b].inbox == c.nodes[b].inbox;
    }
  }

  /**
   In every run, what a live broker has applied of other brokers, followed by what of theirs waits in its inbox, is
   exactly what of theirs reached it, in order: retained or not, nothing is skipped, repeated or overtaken.
   */
  lemma {:induction false} BusIsApplied(es: seq<Event>, b: nat)
    requires Runs(es) && b in After(es).nodes && !After(es).nodes[b].phase.Down?
    ensures TakenAndWaiting(After(es).nodes[b], b, After(es).log) == Flat(Reached(es, b), ForeignSerial(b))
  {
    if es != [] {
      var init, last := es[..|es| - 1], es[|es| - 1];
      var c := After(init);
      if b in c.nodes {
        NodeOfRun(init, b);
        BusIsApplied(init, b);
        StepTakes(c, last, b);
        BroughtStep(c, last, b, Reached(init, b));
      } else {
        NothingReaches(init, b);
      }
    }
  }

  lemma {:induction false} NothingReaches(es: seq<Event>, b: nat)
    requires Runs(es) && b !in After(es).nodes
    ensures Reached(es, b) == []
  {
    if es != [] {
      NothingReaches(es[..|es| - 1], b);
    }
  }
}
