/**
 Order across brokers: in every run, at every broker, the publishes of one client connection are applied in the
 order in which that connection made them, retained or not, whatever is lost and whoever else publishes.
 */
module ClusterOrder {
  import opened Prelude
  import opened Packets
  import opened Cluster
  import opened ClusterOnce

  /** Connection `writer` of broker `origin`. */
  datatype Connection = Connection(origin: nat, writer: nat)

  predicate By(m: Msg, k: Connection) {
    m.sender == k.origin && m.writer == k.writer
  }

  ghost predicate ByAt(log: seq<Msg>, s: nat, k: Connection) {
    s < |log| && By(log[s], k)
  }

  // The invariant of one node.

  /** The connection's broker sends in order, after all that is published. */
  ghost predicate SendsInOrder(n: Node, log: seq<Msg>, published: set<nat>, k: Connection) {
    && (forall i, j :: 0 <= i < j < |n.queue| && By(n.queue[i], k) && By(n.queue[j], k) ==>
          n.queue[i].serial < n.queue[j].serial)
    && (forall i, w <- n.hands :: 0 <= i < |n.queue| && By(n.queue[i], k) && By(n.hands[w], k) ==>
          n.queue[i].serial < n.hands[w].serial)
    && (forall i, s <- published :: 0 <= i < |n.queue| && By(n.queue[i], k) && ByAt(log, s, k) ==>
          s < n.queue[i].serial)
    && (forall w <- n.hands, s <- published :: By(n.hands[w], k) && ByAt(log, s, k) ==> s < n.hands[w].serial)
  }

  /** The inbox brings them in order, after all that is applied. */
  ghost predicate BringsInOrder(n: Node, log: seq<Msg>, k: Connection) {
    && (forall i, j :: 0 <= i < j < |n.inbox| && By(n.inbox[i], k) && By(n.inbox[j], k) ==>
          n.inbox[i].serial < n.inbox[j].serial)
    && (forall i, j ::
          0 <= i < |n.applied| && 0 <= j < |n.inbox| && ByAt(log, n.applied[i], k) && By(n.inbox[j], k) ==>
            n.applied[i] < n.inbox[j].serial)
  }

  ghost predicate AppliesInOrder(n: Node, log: seq<Msg>, k: Connection) {
    forall i, j :: 0 <= i < j < |n.applied| && ByAt(log, n.applied[i], k) && ByAt(log, n.applied[j], k) ==>
      n.applied[i] < n.applied[j]
  }

  ghost predicate InOrder(n: Node, b: nat, log: seq<Msg>, published: set<nat>, k: Connection) {
    && SendsInOrder(n, log, published, k)
    && (b != k.origin ==> BringsInOrder(n, log, k))
    && AppliesInOrder(n, log, k)
  }

  ghost predicate AllInOrder(c: Cluster, k: Connection) {
    forall b <- c.nodes :: InOrder(c.nodes[b], b, c.log, c.published, k)
  }

  // The node that takes a step.

  lemma ApplyInOrder(n: Node, b: nat, m: Msg, log: seq<Msg>, published: set<nat>, k: Connection)
    requires NodeOk(n, b, log, published) && InOrder(n, b, log, published, k) && Fresh(n, b, m, log, published)
    ensures InOrder(ApplyNode(n, m), b, log + [m], published, k)
  {
    ApplySends(n, b, m, log, published, k);
    var n', log' := ApplyNode(n, m), log + [m];
    forall i | 0 <= i < |n.applied|
      ensures n.applied[i] < |log| && (ByAt(log', n.applied[i], k) <==> ByAt(log, n.applied[i], k))
    {
    }
  }

  lemma ApplySends(n: Node, b: nat, m: Msg, log: seq<Msg>, published: set<nat>, k: Connection)
    requires HandsOk(n, b, log, published) && QueueOk(n, b, log, published)
    requires SendsInOrder(n, log, published, k) && Fresh(n, b, m, log, published)
    ensures SendsInOrder(ApplyNode(n, m), log + [m], published, k)
  {
    var n', log' := ApplyNode(n, m), log + [m];
    assert forall s <- published :: ByAt(log', s, k) <==> ByAt(log, s, k);
    forall i, w | w in n'.hands && 0 <= i < |n'.queue| && By(n'.queue[i], k) && By(n'.hands[w], k)
      ensures n'.queue[i].serial < n'.hands[w].serial
    {
      assert Logged(n.queue[i], log);
    }
  }

  lemma EnqueueInOrder(n: Node, b: nat, w: nat, log: seq<Msg>, published: set<nat>, k: Connection)
    requires HandsOk(n, b, log, published) && InOrder(n, b, log, published, k) && w in n.hands
    ensures InOrder(EnqueueNode(n, w), b, log, published, k)
  {
    EnqueueSends(n, b, w, log, published, k);
  }

  lemma EnqueueSends(n: Node, b: nat, w: nat, log: seq<Msg>, published: set<nat>, k: Connection)
    requires HandsOk(n, b, log, published) && SendsInOrder(n, log, published, k) && w in n.hands
    ensures SendsInOrder(EnqueueNode(n, w), log, published, k)
  {
    assert forall v <- n.hands :: By(n.hands[v], k) ==> v == k.writer;
  }

  lemma ReceiveInOrder(n: Node, b: nat, log: seq<Msg>, published: set<nat>, k: Connection)
    requires InboxOk(n, b, log, published) && InOrder(n, b, log, published, k) && n.inbox != []
    ensures InOrder(ReceiveNode(n, b), b, log, published, k)
  {
    var n', m := ReceiveNode(n, b), n.inbox[0];
    assert Logged(m, log);
    forall i | 0 <= i < |n'.inbox| ensures n'.inbox[i] == n.inbox[i + 1] { }
    if m.sender != b && By(m, k) {
      assert BringsInOrder(n, log, k);
    }
  }

  // A node while the bus goes on.

  lemma SendKeepsOrder(n: Node, b: nat, log: seq<Msg>, published: set<nat>, k: Connection)
    requires QueueOk(n, b, log, published) && SendsInOrder(n, log, published, k) && n.queue != []
    ensures SendsInOrder(SentNode(n), log, published + {n.queue[0].serial}, k)
  {
    var n', m := SentNode(n), n.queue[0];
    assert Logged(m, log);
    forall i | 0 <= i < |n'.queue| ensures n'.queue[i] == n.queue[i + 1] { }
  }

  /** A broker sends nothing of other brokers' connections. */
  lemma SendsNothing(n: Node, b: nat, log: seq<Msg>, published: set<nat>, more: set<nat>, k: Connection)
    requires HandsOk(n, b, log, published) && QueueOk(n, b, log, published) && b != k.origin
    ensures SendsInOrder(n, log, published + more, k)
  {
  }

  /** `m` is newer than everything of its connection that is published. */
  ghost predicate Next(m: Msg, log: seq<Msg>, published: set<nat>, k: Connection) {
    Logged(m, log) && (By(m, k) ==> forall s <- published :: ByAt(log, s, k) ==> s < m.serial)
  }

  lemma ReachInOrder(n: Node, b: nat, m: Msg, log: seq<Msg>, published: set<nat>, k: Connection)
    requires InboxOk(n, b, log, published) && AppliedOk(n, b, log, published) && b != k.origin
    requires BringsInOrder(n, log, k) && Next(m, log, published, k)
    ensures BringsInOrder(ReachedNode(n, m), log, k)
  {
    if By(m, k) {
      forall i | 0 <= i < |n.inbox| && By(n.inbox[i], k) ensures n.inbox[i].serial < m.serial {
        assert Logged(n.inbox[i], log);
      }
      forall i | 0 <= i < |n.applied| && ByAt(log, n.applied[i], k) ensures n.applied[i] < m.serial {
        assert n.applied[i] in published;
      }
    }
  }

  lemma PublishSends(n: Node, b: nat, m: Msg, own: bool, log: seq<Msg>, published: set<nat>, k: Connection)
    requires HandsOk(n, b, log, published) && QueueOk(n, b, log, published) && SendsInOrder(n, log, published, k)
    requires Logged(m, log) && (if own then n.queue != [] && n.queue[0] == m else m.sender != b)
    ensures SendsInOrder(if own then SentNode(n) else n, log, published + {m.serial}, k)
  {
    if own {
      SendKeepsOrder(n, b, log, published, k);
    } else if b != k.origin {
      SendsNothing(n, b, log, published, {m.serial}, k);
    } else {
      assert !By(m, k);
    }
  }

  /** One node in the step that publishes `m`. */
  lemma PublishInOrder(n: Node, b: nat, m: Msg, own: bool, reached: bool, log: seq<Msg>, published: set<nat>,
                       k: Connection)
    requires NodeOk(n, b, log, published) && InOrder(n, b, log, published, k) && Next(m, log, published, k)
    requires if own then n.queue != [] && n.queue[0] == m else m.sender != b
    ensures InOrder(PublishNode(n, m, own, reached), b, log, published + {m.serial}, k)
  {
    PublishSends(n, b, m, own, log, published, k);
    if b != k.origin { ReachInOrder(n, b, m, log, published, k); }
  }

  lemma LogInOrder(n: Node, b: nat, m: Msg, log: seq<Msg>, published: set<nat>, k: Connection)
    requires NodeOk(n, b, log, published) && InOrder(n, b, log, published, k) && (forall s <- published :: s < |log|)
    ensures InOrder(n, b, log + [m], published, k)
  {
    assert forall s <- published :: ByAt(log + [m], s, k) <==> ByAt(log, s, k);
    assert forall i :: 0 <= i < |n.applied| ==> (ByAt(log + [m], n.applied[i], k) <==> ByAt(log, n.applied[i], k));
  }

  // Every step.

  lemma PublishKeepsOrder(c: Cluster, e: Event, k: Connection, y: nat)
    requires Enabled(c, e) && e.Publish? && y in c.nodes
    requires NodeOk(c.nodes[e.node], e.node, c.log, c.published) && NodeOk(c.nodes[y], y, c.log, c.published)
    requires InOrder(c.nodes[e.node], e.node, c.log, c.published, k) && InOrder(c.nodes[y], y, c.log, c.published, k)
    ensures y in Step(c, e).nodes && InOrder(Step(c, e).nodes[y], y, c.log, Step(c, e).published, k)
  {
    var m := c.nodes[e.node].queue[0];
    assert Logged(m, c.log) && Next(m, c.log, c.published, k);
    PublishInOrder(c.nodes[y], y, m, y == e.node, y in e.delivered, c.log, c.published, k);
  }

  lemma OwnKeepsOrder(c: Cluster, e: Event, k: Connection)
    requires Enabled(c, e) && !e.Publish? && GlobalOk(c)
    requires e.node in c.nodes ==>
               NodeOk(c.nodes[e.node], e.node, c.log, c.published) &&
               InOrder(c.nodes[e.node], e.node, c.log, c.published, k)
    ensures InOrder(Step(c, e).nodes[e.node], e.node, Step(c, e).log, c.published, k)
  {
    var b := e.node;
    match e {
      case Apply(_, _, _, _, _) => ApplyInOrder(c.nodes[b], b, NewMsg(c, e), c.log, c.published, k);
      case Enqueue(_, w) => EnqueueInOrder(c.nodes[b], b, w, c.log, c.published, k);
      case Receive(_) => ReceiveInOrder(c.nodes[b], b, c.log, c.published, k);
      case _ =>
    }
  }

  lemma StepKeepsOrder(c: Cluster, e: Event, k: Connection, y: nat)
    requires Enabled(c, e) && y in Step(c, e).nodes && GlobalOk(c)
    requires forall b :: b in c.nodes && (b == y || b == e.node) ==>
               NodeOk(c.nodes[b], b, c.log, c.published) && InOrder(c.nodes[b], b, c.log, c.published, k)
    ensures InOrder(Step(c, e).nodes[y], y, Step(c, e).log, Step(c, e).published, k)
  {
    if e.Publish? {
      PublishKeepsOrder(c, e, k, y);
    } else if y == e.node {
      OwnKeepsOrder(c, e, k);
    } else if e.Apply? {
      LogInOrder(c.nodes[y], y, NewMsg(c, e), c.log, c.published, k);
    }
  }

  lemma {:induction false} RunKeepsOrder(es: seq<Event>, k: Connection)
    requires Runs(es)
    ensures AllInOrder(After(es), k)
  {
    if es != [] {
      var init := es[..|es| - 1];
      RunKeepsOrder(init, k);
      RunKeepsInv(init);
      forall y | y in After(es).nodes ensures InOrder(After(es).nodes[y], y, After(es).log, After(es).published, k) {
        StepKeepsOrder(After(init), es[|es| - 1], k, y);
      }
    }
  }

  /**
   In every run, at every broker, two publishes of the same connection are applied in the order in which the
   connection made them. Nothing is required of the run: no turns, no reliable bus.
   */
  lemma {:induction false} AppliedInConnectionOrder(es: seq<Event>, b: nat, i: nat, j: nat)
    requires Runs(es) && b in After(es).nodes && i < j < |After(es).nodes[b].applied|
    ensures var log, applied := After(es).log, After(es).nodes[b].applied;
            && applied[i] < |log| && applied[j] < |log|
            && var m, n := log[applied[i]], log[applied[j]];
               m.sender == n.sender && m.writer == n.writer ==> applied[i] < applied[j]
  {
    var c := After(es);
    var applied := c.nodes[b].applied;
    RunKeepsInv(es);
    assert NodeOk(c.nodes[b], b, c.log, c.published);
    var m := c.log[applied[i]];
    var k := Connection(m.sender, m.writer);
    RunKeepsOrder(es, k);
    assert InOrder(c.nodes[b], b, c.log, c.published, k);
  }
}
