/** No echo and no amplification: every publish is applied at most once at every broker. */
module ClusterOnce {
  import opened Prelude
  import opened Packets
  import opened Cluster

  /** A message travels unchanged: it is the one logged under its serial number. */
  ghost predicate Logged(m: Msg, log: seq<Msg>) {
    m.serial < |log| && log[m.serial] == m
  }

  ghost predicate HandsOk(n: Node, b: nat, log: seq<Msg>, published: set<nat>) {
    forall w <- n.hands ::
      Logged(n.hands[w], log) && n.hands[w].sender == b && n.hands[w].writer == w && n.hands[w].serial !in published
  }

  ghost predicate QueueOk(n: Node, b: nat, log: seq<Msg>, published: set<nat>) {
    && (forall i :: 0 <= i < |n.queue| ==>
          Logged(n.queue[i], log) && n.queue[i].sender == b && n.queue[i].serial !in published)
    && (forall i, j :: 0 <= i < j < |n.queue| ==> n.queue[i].serial != n.queue[j].serial)
    && (forall w <- n.hands, i :: 0 <= i < |n.queue| ==> n.hands[w].serial != n.queue[i].serial)
  }

  ghost predicate InboxOk(n: Node, b: nat, log: seq<Msg>, published: set<nat>) {
    && (forall i :: 0 <= i < |n.inbox| ==>
          Logged(n.inbox[i], log) && n.inbox[i].serial in published &&
          (n.inbox[i].sender != b ==> n.inbox[i].serial !in n.applied))
    && (forall i, j :: 0 <= i < j < |n.inbox| ==> n.inbox[i].serial != n.inbox[j].serial)
  }

  /** Own publishes are applied exactly once, others at most once and only after they were published. */
  ghost predicate AppliedOk(n: Node, b: nat, log: seq<Msg>, published: set<nat>) {
    && (forall i :: 0 <= i < |n.applied| ==>
          n.applied[i] < |log| && (log[n.applied[i]].sender != b ==> n.applied[i] in published))
    && (forall i, j :: 0 <= i < j < |n.applied| ==> n.applied[i] != n.applied[j])
    && (forall s :: 0 <= s < |log| && log[s].sender == b ==> s in n.applied)
  }

  ghost predicate UnsavedOk(n: Node, b: nat, log: seq<Msg>, published: set<nat>) {
    n.unsaved.Some? ==>
      var m := n.unsaved.value; Logged(m, log) && m.sender == b && m.serial in published && m.retain
  }

  ghost predicate RetainedOk(retained: map<Topic, Msg>, log: seq<Msg>) {
    forall t <- retained :: Logged(retained[t], log) && retained[t].topic == t && retained[t].retain
  }

  ghost predicate IdleUnlessListening(n: Node) {
    && (!n.phase.Listening? ==> n.hands == map[] && n.queue == [] && n.unsaved.None? && n.inbox == [])
    && (n.phase.Loading? ==> n.applied == [])
  }

  ghost predicate NodeOk(n: Node, b: nat, log: seq<Msg>, published: set<nat>) {
    && HandsOk(n, b, log, published)
    && QueueOk(n, b, log, published)
    && InboxOk(n, b, log, published)
    && AppliedOk(n, b, log, published)
    && UnsavedOk(n, b, log, published)
    && RetainedOk(n.retained, log)
    && IdleUnlessListening(n)
  }

  ghost predicate GlobalOk(c: Cluster) {
    && (forall s :: 0 <= s < |c.log| ==> c.log[s].serial == s && c.log[s].sender in c.nodes)
    && (forall s <- c.published :: s < |c.log|)
    && RetainedOk(c.store, c.log)
    && (forall t <- c.store :: c.store[t].serial in c.published && c.store[t].serial in c.saved)
  }

  ghost predicate Inv(c: Cluster) {
    GlobalOk(c) && forall b <- c.nodes :: NodeOk(c.nodes[b], b, c.log, c.published)
  }

  /** A node that a step leaves alone stays in order while the log and the set of published messages grow. */
  lemma NodeFrame(n: Node, b: nat, log: seq<Msg>, more: seq<Msg>, published: set<nat>, news: set<nat>)
    requires NodeOk(n, b, log, published)
    requires forall m <- more :: m.sender != b
    requires forall s <- news :: s < |log| && log[s].sender != b
    ensures NodeOk(n, b, log + more, published + news)
  {
  }

  lemma JoinKeeps(b: nat, keys: seq<Topic>, log: seq<Msg>, published: set<nat>)
    requires forall s :: 0 <= s < |log| ==> log[s].sender != b
    ensures NodeOk(Node(Loading(keys), map[], [], None, [], map[], [], {}), b, log, published)
  {
  }

  lemma LoadKeeps(n: Node, b: nat, store: map<Topic, Msg>, readable: bool, log: seq<Msg>, published: set<nat>)
    requires NodeOk(n, b, log, published) && RetainedOk(store, log) && n.phase.Loading? && n.phase.todo != []
    ensures NodeOk(LoadNode(n, store, readable), b, log, published)
  {
    var n' := LoadNode(n, store, readable);
    assert RetainedOk(n'.retained, log);
    assert n' == n.(phase := n'.phase, retained := n'.retained, heard := n'.heard);
  }

  lemma ListenKeeps(n: Node, b: nat, log: seq<Msg>, published: set<nat>)
    requires NodeOk(n, b, log, published)
    ensures NodeOk(n.(phase := Listening), b, log, published)
  {
  }

  lemma SaveKeeps(n: Node, b: nat, log: seq<Msg>, published: set<nat>)
    requires NodeOk(n, b, log, published)
    ensures NodeOk(n.(unsaved := None), b, log, published)
  {
  }

  /** A publish by a client of the node itself: the newest serial number, held by a free connection. */
  ghost predicate Fresh(n: Node, b: nat, m: Msg, log: seq<Msg>, published: set<nat>) {
    m.serial == |log| && m.sender == b && m.writer !in n.hands && (forall s <- published :: s < |log|)
  }

  lemma ApplyKeepsApplied(n: Node, b: nat, m: Msg, log: seq<Msg>, published: set<nat>)
    requires AppliedOk(n, b, log, published) && Fresh(n, b, m, log, published)
    ensures AppliedOk(ApplyNode(n, m), b, log + [m], published)
  {
    var n', log' := ApplyNode(n, m), log + [m];
    forall s | 0 <= s < |log'| && log'[s].sender == b ensures s in n'.applied {
      if s < |log| { assert s in n.applied; } else { assert n'.applied[|n.applied|] == s; }
    }
  }

  lemma ApplyKeepsQueues(n: Node, b: nat, m: Msg, log: seq<Msg>, published: set<nat>)
    requires HandsOk(n, b, log, published) && QueueOk(n, b, log, published) && Fresh(n, b, m, log, published)
    ensures HandsOk(ApplyNode(n, m), b, log + [m], published) && QueueOk(ApplyNode(n, m), b, log + [m], published)
  {
  }

  lemma ApplyKeepsInbox(n: Node, b: nat, m: Msg, log: seq<Msg>, published: set<nat>)
    requires InboxOk(n, b, log, published) && Fresh(n, b, m, log, published)
    ensures InboxOk(ApplyNode(n, m), b, log + [m], published)
  {
  }

  lemma ApplyKeeps(n: Node, b: nat, m: Msg, log: seq<Msg>, published: set<nat>)
    requires NodeOk(n, b, log, published) && Fresh(n, b, m, log, published) && n.phase.Listening?
    ensures NodeOk(ApplyNode(n, m), b, log + [m], published)
  {
    ApplyKeepsApplied(n, b, m, log, published);
    ApplyKeepsQueues(n, b, m, log, published);
    ApplyKeepsInbox(n, b, m, log, published);
  }

  lemma EnqueueKeeps(n: Node, b: nat, w: nat, log: seq<Msg>, published: set<nat>)
    requires NodeOk(n, b, log, published) && n.phase.Listening? && w in n.hands
    ensures NodeOk(EnqueueNode(n, w), b, log, published)
  {
    var n' := EnqueueNode(n, w);
    forall w', i | w' in n'.hands && 0 <= i < |n'.queue| ensures n'.hands[w'].serial != n'.queue[i].serial {
      if i == |n.queue| {
        assert n.hands[w'].writer != n.hands[w].writer;
        assert log[n.hands[w'].serial] == n.hands[w'] && log[n.hands[w].serial] == n.hands[w];
      }
    }
  }

  lemma SendKeeps(n: Node, b: nat, log: seq<Msg>, published: set<nat>)
    requires NodeOk(n, b, log, published) && n.phase.Listening? && n.unsaved.None? && n.queue != []
    ensures NodeOk(SentNode(n), b, log, published + {n.queue[0].serial})
  {
    var n', m := SentNode(n), n.queue[0];
    assert Logged(m, log);
    forall i | 0 <= i < |n'.queue| ensures n'.queue[i].serial != m.serial {
      assert n'.queue[i] == n.queue[i + 1];
    }
  }

  /** A message that was not published before is new to every other node. */
  lemma ReachKeeps(n: Node, b: nat, m: Msg, log: seq<Msg>, published: set<nat>)
    requires NodeOk(n, b, log, published + {m.serial}) && n.phase.Listening? && Logged(m, log)
    requires forall i :: 0 <= i < |n.inbox| ==> n.inbox[i].serial != m.serial
    requires m.sender != b ==> m.serial !in n.applied
    ensures NodeOk(ReachedNode(n, m), b, log, published + {m.serial})
  {
  }

  lemma ReceiveKeeps(n: Node, b: nat, log: seq<Msg>, published: set<nat>)
    requires NodeOk(n, b, log, published) && n.phase.Listening? && n.inbox != []
    ensures NodeOk(ReceiveNode(n, b), b, log, published)
  {
    var n', m := ReceiveNode(n, b), n.inbox[0];
    assert Logged(m, log);
    forall i | 0 <= i < |n'.inbox| ensures n'.inbox[i].serial != m.serial {
      assert n'.inbox[i] == n.inbox[i + 1];
    }
    forall s | 0 <= s < |log| && log[s].sender == b ensures s in n'.applied {
      assert s in n.applied;
    }
  }

  lemma CrashKeeps(n: Node, b: nat, log: seq<Msg>, published: set<nat>)
    requires NodeOk(n, b, log, published)
    ensures NodeOk(CrashNode(n), b, log, published)
  {
  }

  lemma PublishOwn(n: Node, b: nat, reached: bool, log: seq<Msg>, published: set<nat>)
    requires NodeOk(n, b, log, published) && n.phase.Listening? && n.unsaved.None? && n.queue != []
    ensures NodeOk(PublishNode(n, n.queue[0], true, reached), b, log, published + {n.queue[0].serial})
  {
    SendKeeps(n, b, log, published);
    if reached {
      assert Logged(n.queue[0], log);
      ReachKeeps(SentNode(n), b, n.queue[0], log, published);
    }
  }

  lemma PublishOther(n: Node, x: nat, m: Msg, reached: bool, log: seq<Msg>, published: set<nat>)
    requires NodeOk(n, x, log, published) && Logged(m, log) && m.sender != x && m.serial !in published
    ensures NodeOk(PublishNode(n, m, false, reached), x, log, published + {m.serial})
  {
    NodeFrame(n, x, log, [], published, {m.serial});
    assert log + [] == log;
    if reached && n.phase.Listening? {
      ReachKeeps(n, x, m, log, published);
    }
  }

  /** One node in the step that publishes the first message in the queue of node `b`. */
  lemma PublishKeepsNode(c: Cluster, b: nat, delivered: set<nat>, x: nat)
    requires Inv(c) && Enabled(c, Publish(b, delivered)) && x in c.nodes
    ensures NodeOk(PublishNodes(c, b, delivered)[x], x, c.log, c.published + {c.nodes[b].queue[0].serial})
  {
    assert NodeOk(c.nodes[b], b, c.log, c.published);
    if x == b {
      PublishOwn(c.nodes[b], b, x in delivered, c.log, c.published);
    } else {
      assert Logged(c.nodes[b].queue[0], c.log);
      PublishOther(c.nodes[x], x, c.nodes[b].queue[0], x in delivered, c.log, c.published);
    }
  }

  lemma SaveKeepsGlobal(c: Cluster, m: Msg)
    requires GlobalOk(c) && Logged(m, c.log) && m.serial in c.published && m.retain
    ensures GlobalOk(c.(store := c.store[m.topic := m], saved := c.saved + {m.serial}))
  {
  }

  lemma GlobalFrame(c: Cluster, nodes: map<nat, Node>)
    requires GlobalOk(c) && c.nodes.Keys <= nodes.Keys
    ensures GlobalOk(c.(nodes := nodes))
  {
  }

  lemma ApplyKeepsGlobal(c: Cluster, m: Msg)
    requires GlobalOk(c) && m.serial == |c.log| && m.sender in c.nodes
    ensures GlobalOk(c.(log := c.log + [m]))
  {
  }

  lemma PublishKeepsGlobal(c: Cluster, s: nat)
    requires GlobalOk(c) && s < |c.log|
    ensures GlobalOk(c.(published := c.published + {s}))
  {
  }

  lemma GlobalKeeps(c: Cluster, e: Event)
    requires GlobalOk(c) && Enabled(c, e)
    requires e.Publish? || e.Save? ==> NodeOk(c.nodes[e.node], e.node, c.log, c.published)
    ensures GlobalOk(Step(c, e))
  {
    var nodes := Step(c, e).nodes;
    GlobalFrame(c, nodes);
    if e.Publish? {
      assert Logged(c.nodes[e.node].queue[0], c.log);
      PublishKeepsGlobal(c.(nodes := nodes), c.nodes[e.node].queue[0].serial);
    } else if e.Save? {
      SaveKeepsGlobal(c.(nodes := nodes), c.nodes[e.node].unsaved.value);
    } else if e.Apply? {
      ApplyKeepsGlobal(c.(nodes := nodes), NewMsg(c, e));
    }
  }

  /** The node that takes the step, for every step but a PUBLISH. */
  lemma OwnNodeKeeps(c: Cluster, e: Event)
    requires GlobalOk(c) && Enabled(c, e) && !e.Publish?
    requires e.node in c.nodes ==> NodeOk(c.nodes[e.node], e.node, c.log, c.published)
    ensures var c' := Step(c, e); NodeOk(c'.nodes[e.node], e.node, c'.log, c'.published)
  {
    var b := e.node;
    match e {
      case Join(_, keys) => JoinKeeps(b, keys, c.log, c.published);
      case Load(_, readable) => LoadKeeps(c.nodes[b], b, c.store, readable, c.log, c.published);
      case Listen(_) => ListenKeeps(c.nodes[b], b, c.log, c.published);
      case Apply(_, _, _, _, _) => ApplyKeeps(c.nodes[b], b, NewMsg(c, e), c.log, c.published);
      case Enqueue(_, w) => EnqueueKeeps(c.nodes[b], b, w, c.log, c.published);
      case Save(_, _) => SaveKeeps(c.nodes[b], b, c.log, c.published);
      case Receive(_) => ReceiveKeeps(c.nodes[b], b, c.log, c.published);
      case Crash(_) => CrashKeeps(c.nodes[b], b, c.log, c.published);
    }
  }

  lemma OtherNodeKeeps(c: Cluster, e: Event, x: nat)
    requires Inv(c) && Enabled(c, e) && !e.Publish? && x in c.nodes && x != e.node
    ensures var c' := Step(c, e);
            x in c'.nodes && c'.nodes[x] == c.nodes[x] && NodeOk(c.nodes[x], x, c'.log, c'.published)
  {
    assert c.published + {} == c.published && c.log + [] == c.log;
    NodeFrame(c.nodes[x], x, c.log, if e.Apply? then [NewMsg(c, e)] else [], c.published, {});
  }

  lemma StepKeepsInv(c: Cluster, e: Event)
    requires Inv(c) && Enabled(c, e)
    ensures Inv(Step(c, e))
  {
    var c' := Step(c, e);
    if e.node in c.nodes { assert NodeOk(c.nodes[e.node], e.node, c.log, c.published); }
    GlobalKeeps(c, e);
    if e.Publish? {
      forall x | x in c'.nodes ensures NodeOk(c'.nodes[x], x, c'.log, c'.published) {
        PublishKeepsNode(c, e.node, e.delivered, x);
      }
    } else {
      OwnNodeKeeps(c, e);
      forall x | x in c'.nodes && x != e.node ensures NodeOk(c'.nodes[x], x, c'.log, c'.published) {
        OtherNodeKeeps(c, e, x);
      }
    }
  }

  lemma {:induction false} RunKeepsInv(es: seq<Event>)
    requires Runs(es)
    ensures Inv(After(es))
  {
    if es != [] {
      RunKeepsInv(es[..|es| - 1]);
      StepKeepsInv(After(es[..|es| - 1]), es[|es| - 1]);
    }
  }

  // The theorems.

  ghost predicate NoRepeats(s: seq<nat>) {
    forall i, j :: 0 <= i < j < |s| ==> s[i] != s[j]
  }

  /**
   In every run each client publish is applied exactly once at its origin and at most once at every
   other broker, and there only if it went over the bus. In particular no broker applies an echo.
   */
  lemma AppliedOnce(es: seq<Event>, b: nat)
    requires Runs(es) && b in After(es).nodes
    ensures var c := After(es);
            var applied := c.nodes[b].applied;
            && NoRepeats(applied)
            && (forall s :: 0 <= s < |c.log| && c.log[s].sender == b ==> s in applied)
            && (forall s <- applied :: s < |c.log| && (c.log[s].sender != b ==> s in c.published))
  {
    RunKeepsInv(es);
    var c := After(es);
    assert NodeOk(c.nodes[b], b, c.log, c.published);
  }

  /** Taking a message from the bus changes the inbox and the registry of the broker that takes it, and nothing else. */
  lemma DeliveryCreatesNothing(c: Cluster, b: nat)
    requires Enabled(c, Receive(b))
    ensures var c' := Step(c, Receive(b));
            && c' == c.(nodes := c.nodes[b := c'.nodes[b]])
            && c'.nodes[b] == c.nodes[b].(inbox := c.nodes[b].inbox[1..], retained := c'.nodes[b].retained,
                                          applied := c'.nodes[b].applied)
  {
  }

  function PublishSteps(es: seq<Event>): nat {
    if es == [] then 0 else PublishSteps(es[..|es| - 1]) + if es[|es| - 1].Publish? then 1 else 0
  }

  function ApplySteps(es: seq<Event>): nat {
    if es == [] then 0 else ApplySteps(es[..|es| - 1]) + if es[|es| - 1].Apply? then 1 else 0
  }

  lemma {:induction false} SmallSet(s: set<nat>, bound: nat)
    requires forall i <- s :: i < bound
    ensures |s| <= bound
  {
    if bound > 0 {
      SmallSet(s - {bound - 1}, bound - 1);
    } else {
      assert s == {};
    }
  }

  lemma CountStep(c: Cluster, e: Event)
    requires Enabled(c, e) && (e.Publish? ==> QueueOk(c.nodes[e.node], e.node, c.log, c.published))
    ensures |Step(c, e).log| == |c.log| + if e.Apply? then 1 else 0
    ensures |Step(c, e).published| == |c.published| + if e.Publish? then 1 else 0
  {
    if e.Receive? { DeliveryCreatesNothing(c, e.node); }
  }

  lemma {:induction false} CountsAgree(es: seq<Event>)
    requires Runs(es)
    ensures ApplySteps(es) == |After(es).log| && PublishSteps(es) == |After(es).published|
  {
    if es != [] {
      var init, last := es[..|es| - 1], es[|es| - 1];
      var c := After(init);
      CountsAgree(init);
      RunKeepsInv(init);
      if last.Publish? { assert NodeOk(c.nodes[last.node], last.node, c.log, c.published); }
      CountStep(c, last);
    }
  }

  /** However often messages are delivered, the bus carries at most one message per client publish. */
  lemma BusCarriesPublishesOnce(es: seq<Event>)
    requires Runs(es)
    ensures PublishSteps(es) <= ApplySteps(es)
  {
    CountsAgree(es);
    RunKeepsInv(es);
    SmallSet(After(es).published, |After(es).log|);
  }

  /** The registry applications of the brokers in `ids`. */
  ghost function Applications(nodes: map<nat, Node>, ids: set<nat>): nat
    requires ids <= nodes.Keys
  {
    if ids == {} then 0
    else var b :| b in ids; |nodes[b].applied| + Applications(nodes, ids - {b})
  }

  /** A repetition-free list of numbers below a bound is no longer than the bound. */
  lemma {:induction false} Pigeonhole(s: seq<nat>, bound: nat)
    requires NoRepeats(s) && forall i :: 0 <= i < |s| ==> s[i] < bound
    ensures |s| <= bound
  {
    if s != [] {
      assert s[0] < bound;
      if i: nat :| i < |s| && s[i] == bound - 1 {
        Pigeonhole(s[..i] + s[i + 1..], bound - 1);
      } else {
        Pigeonhole(s, bound - 1);
      }
    }
  }

  lemma {:induction false} ApplicationsBound(es: seq<Event>, ids: set<nat>)
    requires Runs(es) && ids <= After(es).nodes.Keys
    ensures Applications(After(es).nodes, ids) <= |After(es).log| * |ids|
  {
    if ids != {} {
      var nodes, p := After(es).nodes, |After(es).log|;
      var b :| b in ids && Applications(nodes, ids) == |nodes[b].applied| + Applications(nodes, ids - {b});
      AppliedOnce(es, b);
      forall i | 0 <= i < |nodes[b].applied| ensures nodes[b].applied[i] < p {
        assert nodes[b].applied[i] in nodes[b].applied;
      }
      Pigeonhole(nodes[b].applied, p);
      ApplicationsBound(es, ids - {b});
      calc {
        p * |ids - {b}| + p;
        p * (|ids - {b}| + 1);
        { assert |ids - {b}| + 1 == |ids|; }
        p * |ids|;
      }
    }
  }

  /** p publishes over b brokers cause at most p * b registry applications, in any run. */
  lemma NoAmplification(es: seq<Event>)
    requires Runs(es)
    ensures Applications(After(es).nodes, After(es).nodes.Keys) <= |After(es).log| * |After(es).nodes|
  {
    ApplicationsBound(es, After(es).nodes.Keys);
  }
}
