/**
 Taking turns is exactly what convergence needs. Consider any run in which no SET fails: from every point of
 it, however it drains, the store, the broker that wrote the latest version and every broker that heard of it
 end up with that version, if and only if the retained publishes to the topic took turns.
 */
module ClusterTurns {
  import opened Prelude
  import opened Packets
  import opened Cluster
  import opened ClusterOnce
  import opened ClusterRetained

  ghost predicate NoFailedSet(es: seq<Event>) {
    forall e <- es :: e.Save? ==> e.success
  }

  /** Only what is under way is finished: no new publishes, no crashes, no failing SETs. */
  predicate IsDraining(e: Event) {
    e.Enqueue? || e.Publish? || e.Receive? || (e.Save? && e.success)
  }

  /** A run goes on to another one by draining. */
  ghost predicate DrainsTo(es: seq<Event>, es': seq<Event>) {
    Runs(es) && Runs(es') && es <= es' && forall e <- es'[|es|..] :: IsDraining(e)
  }

  /** No version is on its way any more, and none waits at the broker that wrote the latest one, which is up. */
  ghost predicate Settled(c: Cluster, s: nat, t: Topic) {
    && Latest(c, s, t) && Up(c, c.log[s].sender)
    && !ForeignWaits(c.nodes[c.log[s].sender], c.log[s].sender, t)
    && forall b <- c.nodes :: !InFlight(c.nodes[b], t)
  }

  /** The store, the broker that wrote the latest version and all that heard and took it hold it. */
  ghost predicate Agree(c: Cluster, s: nat, t: Topic)
    requires s < |c.log| && c.log[s].sender in c.nodes
  {
    && HoldsLatest(c.store, c, s, t)
    && HoldsLatest(c.nodes[c.log[s].sender].retained, c, s, t)
    && forall b <- c.nodes ::
         !c.nodes[b].phase.Down? && !ForeignWaits(c.nodes[b], b, t) && s in c.nodes[b].heard ==>
           HoldsLatest(c.nodes[b].retained, c, s, t)
  }

  /** However the run drains, once it has settled, all agree. */
  ghost predicate WillAgree(es: seq<Event>, t: Topic) {
    forall es', s :: DrainsTo(es, es') && Settled(After(es'), s, t) ==> Agree(After(es'), s, t)
  }

  // Taking turns suffices: every version is saved or still on its way.

  ghost predicate OnTheWay(n: Node, s: nat) {
    OnHand(n, s) || (n.unsaved.Some? && n.unsaved.value.serial == s)
  }

  ghost predicate Tracked(c: Cluster, t: Topic) {
    forall s: nat :: VersionAt(c.log, s, t) && Up(c, c.log[s].sender) ==>
      s in c.saved || OnTheWay(c.nodes[c.log[s].sender], s)
  }

  lemma SendOnTheWay(n: Node, log: seq<Msg>, b: nat, published: set<nat>, s: nat, t: Topic)
    requires QueueOk(n, b, log, published) && n.queue != [] && n.unsaved.None?
    requires VersionAt(log, s, t) && OnTheWay(n, s)
    ensures OnTheWay(SentNode(n), s)
  {
    SendOnHand(n, s);
    assert Logged(n.queue[0], log);
  }

  /** A version of a broker that is up stays on its way until it is saved. */
  lemma StepOnTheWay(c: Cluster, e: Event, t: Topic, s: nat)
    requires Enabled(c, e) && VersionAt(c.log, s, t) && (e.Save? ==> e.success) && Up(Step(c, e), c.log[s].sender)
    requires var b := c.log[s].sender;
             Up(c, b) && OnTheWay(c.nodes[b], s) && QueueOk(c.nodes[b], b, c.log, c.published)
    ensures s in Step(c, e).saved || OnTheWay(Step(c, e).nodes[c.log[s].sender], s)
  {
    var b := c.log[s].sender;
    var n, n' := c.nodes[b], Step(c, e).nodes[b];
    if e.node != b {
      assert n'.hands == n.hands && n'.queue == n.queue && n'.unsaved == n.unsaved;
    } else if e.Apply? {
      if OnHand(n, s) { ApplyOnHand(n, NewMsg(c, e), s); }
    } else if e.Enqueue? {
      if OnHand(n, s) { EnqueueOnHand(n, e.writer, s); }
    } else if e.Publish? {
      SendOnTheWay(n, c.log, b, c.published, s, t);
    } else {
      assert n'.hands == n.hands && n'.queue == n.queue;
    }
  }

  lemma {:induction false} RunTracked(es: seq<Event>, t: Topic)
    requires Runs(es) && NoFailedSet(es)
    ensures Tracked(After(es), t)
  {
    if es != [] {
      var init, last := es[..|es| - 1], es[|es| - 1];
      RunTracked(init, t);
      RunKeepsInv(init);
      forall s: nat | VersionAt(After(es).log, s, t) && Up(After(es), After(es).log[s].sender)
        ensures s in After(es).saved || OnTheWay(After(es).nodes[After(es).log[s].sender], s)
      {
        TrackedStep(After(init), last, t, s);
      }
    }
  }

  lemma TrackedStep(c: Cluster, e: Event, t: Topic, s: nat)
    requires Enabled(c, e) && Inv(c) && Tracked(c, t) && (e.Save? ==> e.success)
    requires VersionAt(Step(c, e).log, s, t) && Up(Step(c, e), Step(c, e).log[s].sender)
    ensures s in Step(c, e).saved || OnTheWay(Step(c, e).nodes[Step(c, e).log[s].sender], s)
  {
    if s == |c.log| {
      ApplyOnHand(c.nodes[e.node], NewMsg(c, e), s);
    } else {
      var b := c.log[s].sender;
      assert VersionAt(c.log, s, t) && NodeOk(c.nodes[b], b, c.log, c.published);
      WasUp(c, e, b, s);
      if s !in c.saved { StepOnTheWay(c, e, t, s); }
    }
  }

  /** A broker that has written and is up was up before. */
  lemma WasUp(c: Cluster, e: Event, b: nat, s: nat)
    requires Enabled(c, e) && b in c.nodes && Up(Step(c, e), b) && s < |c.log| && c.log[s].sender == b
    requires AppliedOk(c.nodes[b], b, c.log, c.published) && IdleUnlessListening(c.nodes[b])
    ensures Up(c, b)
  {
    assert s in c.nodes[b].applied;
  }

  /** With turns taken and no failing SET, whatever has settled agrees. */
  lemma {:induction false} SettledAgrees(es: seq<Event>, t: Topic, s: nat)
    requires Runs(es) && InTurn(es, t) && NoFailedSet(es) && Settled(After(es), s, t)
    ensures Agree(After(es), s, t)
  {
    var c := After(es);
    var o := c.log[s].sender;
    RunTracked(es, t);
    RunKeepsInv(es);
    assert NodeOk(c.nodes[o], o, c.log, c.published);
    if s !in c.saved { OnTheWayFlies(c.nodes[o], o, c.log, c.published, s, t); }
    WhoHoldsLatest(es, t, s, o);
    forall b | b in c.nodes && !c.nodes[b].phase.Down? && !ForeignWaits(c.nodes[b], b, t) && s in c.nodes[b].heard
      ensures HoldsLatest(c.nodes[b].retained, c, s, t)
    {
      WhoHoldsLatest(es, t, s, b);
    }
  }

  lemma OnTheWayFlies(n: Node, b: nat, log: seq<Msg>, published: set<nat>, s: nat, t: Topic)
    requires NodeOk(n, b, log, published) && VersionAt(log, s, t) && OnTheWay(n, s)
    ensures InFlight(n, t)
  {
    if OnHand(n, s) {
      OnHandFlies(n, b, log, published, s, t);
    } else {
      assert Logged(n.unsaved.value, log);
    }
  }

  lemma DrainingFailsNothing(es: seq<Event>, es': seq<Event>)
    requires DrainsTo(es, es') && NoFailedSet(es)
    ensures NoFailedSet(es')
  {
    forall e | e in es' ensures e in es || e in es'[|es|..] {
      assert es' == es'[..|es|] + es'[|es|..];
    }
  }

  lemma DrainsToInit(es: seq<Event>, es': seq<Event>)
    requires DrainsTo(es, es') && |es| < |es'|
    ensures DrainsTo(es, es'[..|es'| - 1]) && IsDraining(es'[|es'| - 1])
  {
    var init := es'[..|es'| - 1];
    assert forall e <- init[|es|..] :: e in es'[|es|..];
    assert es'[|es|..][|es'| - |es| - 1] == es'[|es'| - 1];
  }

  lemma {:induction false} DrainingTakesTurns(es: seq<Event>, es': seq<Event>, t: Topic)
    requires DrainsTo(es, es') && InTurn(es, t)
    ensures InTurn(es', t)
    decreases |es'|
  {
    if |es| == |es'| {
      assert es == es';
    } else {
      DrainsToInit(es, es');
      DrainingTakesTurns(es, es'[..|es'| - 1], t);
    }
  }

  lemma {:induction false} PrefixTakesTurns(es: seq<Event>, k: nat, t: Topic)
    requires Runs(es) && InTurn(es, t) && k <= |es| && Runs(es[..k])
    ensures InTurn(es[..k], t)
  {
    if k == |es| {
      assert es[..k] == es;
    } else {
      assert es[..|es| - 1][..k] == es[..k];
      PrefixTakesTurns(es[..|es| - 1], k, t);
    }
  }

  // Taking turns is necessary. First, how brokers drain.

  lemma RunsOn(es: seq<Event>, e: Event)
    requires Runs(es) && Enabled(After(es), e)
    ensures Runs(es + [e]) && After(es + [e]) == Step(After(es), e)
    ensures IsDraining(e) ==> DrainsTo(es, es + [e])
  {
    assert (es + [e])[..|es|] == es && (es + [e])[|es|..] == [e];
  }

  lemma DrainsOn(es: seq<Event>, es': seq<Event>, es'': seq<Event>)
    requires DrainsTo(es, es') && DrainsTo(es', es'')
    ensures DrainsTo(es, es'')
  {
    assert es''[|es|..] == es'[|es|..] + es''[|es'|..];
  }

  /** What the run leaves: the brokers, the store and the log. */
  ghost predicate Leaves(es: seq<Event>, nodes: map<nat, Node>, store: map<Topic, Msg>, log: seq<Msg>) {
    Runs(es) && After(es).nodes == nodes && After(es).store == store && After(es).log == log
  }

  function Saved(store: map<Topic, Msg>, m: Msg): map<Topic, Msg> {
    if m.retain then store[m.topic := m] else store
  }

  /** The store's version is one of broker `b`. */
  ghost predicate StoredBy(store: map<Topic, Msg>, b: nat, t: Topic) {
    t in store && store[t].sender == b
  }

  /** Everything that broker `b` sends is its own, and only retained messages are saved. */
  ghost predicate SendsOwn(n: Node, b: nat) {
    && (forall w <- n.hands :: n.hands[w].sender == b)
    && (forall i :: 0 <= i < |n.queue| ==> n.queue[i].sender == b)
    && (n.unsaved.Some? ==> n.unsaved.value.sender == b && n.unsaved.value.retain)
  }

  lemma SaveNow(es: seq<Event>, nodes: map<nat, Node>, store: map<Topic, Msg>, log: seq<Msg>, b: nat, n: Node)
    returns (es': seq<Event>)
    requires Leaves(es, nodes, store, log) && b in nodes && nodes[b] == n && n.phase.Listening? && n.unsaved.Some?
    ensures DrainsTo(es, es')
    ensures Leaves(es', nodes[b := n.(unsaved := None)], store[n.unsaved.value.topic := n.unsaved.value], log)
  {
    RunsOn(es, Save(b, true));
    es' := es + [Save(b, true)];
  }

  lemma PublishNow(es: seq<Event>, nodes: map<nat, Node>, store: map<Topic, Msg>, log: seq<Msg>, b: nat, n: Node)
    returns (es': seq<Event>)
    requires Leaves(es, nodes, store, log) && b in nodes && nodes[b] == n
    requires n.phase.Listening? && n.unsaved.None? && n.queue != []
    ensures DrainsTo(es, es') && Leaves(es', nodes[b := SentNode(n)], store, log)
  {
    RunsOn(es, Publish(b, {}));
    es' := es + [Publish(b, {})];
    assert After(es').nodes == nodes[b := SentNode(n)];
  }

  /** The first message in the queue is published, reaching nobody, and saved. */
  lemma SyncFirst(es: seq<Event>, nodes: map<nat, Node>, store: map<Topic, Msg>, log: seq<Msg>, b: nat, n: Node)
    returns (es': seq<Event>)
    requires Leaves(es, nodes, store, log) && b in nodes && nodes[b] == n
    requires n.phase.Listening? && n.unsaved.None? && n.queue != []
    ensures DrainsTo(es, es') && Leaves(es', nodes[b := n.(queue := n.queue[1..])], Saved(store, n.queue[0]), log)
  {
    es' := PublishNow(es, nodes, store, log, b, n);
    if n.queue[0].retain {
      var n1 := SentNode(n);
      var es'' := SaveNow(es', nodes[b := n1], store, log, b, n1);
      assert nodes[b := n1][b := n1.(unsaved := None)] == nodes[b := n.(queue := n.queue[1..])];
      DrainsOn(es, es', es'');
      es' := es'';
    }
  }

  lemma {:induction false} FlushQueue(es: seq<Event>, nodes: map<nat, Node>, store: map<Topic, Msg>, log: seq<Msg>,
                                      b: nat, n: Node, t: Topic) returns (es': seq<Event>, store': map<Topic, Msg>)
    requires Leaves(es, nodes, store, log) && b in nodes && nodes[b] == n && SendsOwn(n, b)
    requires n.phase.Listening? && n.unsaved.None?
    ensures DrainsTo(es, es') && Leaves(es', nodes[b := n.(queue := [])], store', log)
    ensures StoredBy(store, b, t) || InQueue(n, t) ==> StoredBy(store', b, t)
    decreases |n.queue|
  {
    if n.queue == [] {
      es', store' := es, store;
      assert nodes[b := n.(queue := [])] == nodes;
    } else {
      var n1 := n.(queue := n.queue[1..]);
      var mid := SyncFirst(es, nodes, store, log, b, n);
      es', store' := FlushQueue(mid, nodes[b := n1], Saved(store, n.queue[0]), log, b, n1, t);
      assert nodes[b := n1][b := n1.(queue := [])] == nodes[b := n.(queue := [])];
      DrainsOn(es, mid, es');
      if InQueue(n, t) && !Version(n.queue[0], t) {
        var i :| 0 <= i < |n.queue| && Version(n.queue[i], t);
        assert n1.queue[i - 1] == n.queue[i];
      }
    }
  }

  /** A message in hand goes all the way to the store, when nothing is before it. */
  lemma SendHand(es: seq<Event>, nodes: map<nat, Node>, store: map<Topic, Msg>, log: seq<Msg>, b: nat, n: Node, w: nat)
    returns (es': seq<Event>)
    requires Leaves(es, nodes, store, log) && b in nodes && nodes[b] == n
    requires n.phase.Listening? && n.unsaved.None? && n.queue == [] && w in n.hands
    ensures DrainsTo(es, es') && Leaves(es', nodes[b := n.(hands := n.hands - {w})], Saved(store, n.hands[w]), log)
  {
    RunsOn(es, Enqueue(b, w));
    var mid := es + [Enqueue(b, w)];
    var n1 := EnqueueNode(n, w);
    assert Leaves(mid, nodes[b := n1], store, log);
    es' := SyncFirst(mid, nodes[b := n1], store, log, b, n1);
    assert n1.queue[1..] == [];
    assert nodes[b := n1][b := n1.(queue := [])] == nodes[b := n.(hands := n.hands - {w})];
    DrainsOn(es, mid, es');
  }

  lemma {:induction false} FlushHands(es: seq<Event>, nodes: map<nat, Node>, store: map<Topic, Msg>, log: seq<Msg>,
                                      b: nat, n: Node, keep: set<nat>, t: Topic)
    returns (es': seq<Event>, store': map<Topic, Msg>)
    requires Leaves(es, nodes, store, log) && b in nodes && nodes[b] == n && SendsOwn(n, b)
    requires n.phase.Listening? && n.unsaved.None? && n.queue == []
    ensures DrainsTo(es, es') && Leaves(es', nodes[b := n.(hands := n.hands - (n.hands.Keys - keep))], store', log)
    ensures StoredBy(store, b, t) || (keep == {} && InHand(n, t)) ==> StoredBy(store', b, t)
    decreases n.hands.Keys - keep
  {
    if n.hands.Keys <= keep {
      es', store' := es, store;
      assert n.hands - (n.hands.Keys - keep) == n.hands && nodes[b := n] == nodes;
    } else {
      var w :| w in n.hands && w !in keep;
      var mid := SendHand(es, nodes, store, log, b, n, w);
      var n1 := n.(hands := n.hands - {w});
      assert n1.hands.Keys - keep == n.hands.Keys - keep - {w};
      es', store' := FlushHands(mid, nodes[b := n1], Saved(store, n.hands[w]), log, b, n1, keep, t);
      assert n1.hands - (n1.hands.Keys - keep) == n.hands - (n.hands.Keys - keep);
      assert nodes[b := n1][b := n.(hands := n.hands - (n.hands.Keys - keep))] ==
             nodes[b := n.(hands := n.hands - (n.hands.Keys - keep))];
      DrainsOn(es, mid, es');
      if InHand(n, t) && !Version(n.hands[w], t) {
        var v :| v in n.hands && Version(n.hands[v], t);
        assert v in n1.hands && Version(n1.hands[v], t);
      }
    }
  }

  /** Everything is sent but the messages in the hands `keep`. */
  lemma FlushAll(es: seq<Event>, nodes: map<nat, Node>, store: map<Topic, Msg>, log: seq<Msg>, b: nat, n: Node,
                 keep: set<nat>, t: Topic) returns (es': seq<Event>, store': map<Topic, Msg>)
    requires Leaves(es, nodes, store, log) && b in nodes && nodes[b] == n && SendsOwn(n, b) && n.phase.Listening?
    ensures DrainsTo(es, es')
    ensures Leaves(es', nodes[b := n.(hands := n.hands - (n.hands.Keys - keep), queue := [], unsaved := None)], store',
                   log)
    ensures keep == {} && InFlight(n, t) ==> StoredBy(store', b, t)
  {
    var es0, store0, n0 := es, store, n.(unsaved := None);
    if n.unsaved.Some? {
      es0 := SaveNow(es, nodes, store, log, b, n);
      store0 := store[n.unsaved.value.topic := n.unsaved.value];
    }
    assert nodes[b := n] == nodes;
    var es1, store1 := FlushQueue(es0, nodes[b := n0], store0, log, b, n0, t);
    var n1 := n0.(queue := []);
    assert nodes[b := n0][b := n1] == nodes[b := n1];
    es', store' := FlushHands(es1, nodes[b := n1], store1, log, b, n1, keep, t);
    assert nodes[b := n1][b := n1.(hands := n1.hands - (n1.hands.Keys - keep))] ==
           nodes[b := n1.(hands := n1.hands - (n1.hands.Keys - keep))];
    DrainsOn(es, es0, es1);
    DrainsOn(es, es1, es');
    assert InQueue(n, t) ==> InQueue(n0, t);
    assert InHand(n, t) ==> InHand(n1, t);
  }

  /** Two messages in hand can be sent in either order: the one sent last is what the store keeps. */
  lemma Overtake(es: seq<Event>, nodes: map<nat, Node>, store: map<Topic, Msg>, log: seq<Msg>, b: nat, n: Node,
                 v: nat, w: nat, t: Topic) returns (es': seq<Event>, store': map<Topic, Msg>)
    requires Leaves(es, nodes, store, log) && b in nodes && nodes[b] == n && SendsOwn(n, b) && n.phase.Listening?
    requires v in n.hands && w in n.hands && v != w && Version(n.hands[v], t)
    ensures DrainsTo(es, es') && Leaves(es', nodes[b := n.(hands := map[], queue := [], unsaved := None)], store', log)
    ensures t in store' && store'[t] == n.hands[v]
  {
    var es1, store1 := FlushAll(es, nodes, store, log, b, n, {v, w}, t);
    var n1 := n.(hands := n.hands - (n.hands.Keys - {v, w}), queue := [], unsaved := None);
    var es2 := SendHand(es1, nodes[b := n1], store1, log, b, n1, w);
    var n2 := n1.(hands := n1.hands - {w});
    assert nodes[b := n1][b := n2] == nodes[b := n2];
    es' := SendHand(es2, nodes[b := n2], Saved(store1, n.hands[w]), log, b, n2, v);
    store' := Saved(Saved(store1, n.hands[w]), n.hands[v]);
    var n3 := n2.(hands := n2.hands - {v});
    assert n3.hands == map[];
    assert nodes[b := n2][b := n3] == nodes[b := n3];
    DrainsOn(es, es1, es2);
    DrainsOn(es, es2, es');
  }

  /** A broker takes everything from its inbox; versions of others replace its own. */
  lemma {:induction false} ReceiveAll(es: seq<Event>, nodes: map<nat, Node>, store: map<Topic, Msg>, log: seq<Msg>,
                                      b: nat, n: Node, t: Topic) returns (es': seq<Event>, n': Node)
    requires Leaves(es, nodes, store, log) && b in nodes && nodes[b] == n && n.phase.Listening? && n.unsaved.None?
    ensures DrainsTo(es, es') && Leaves(es', nodes[b := n'], store, log)
    ensures n' == n.(inbox := [], retained := n'.retained, applied := n'.applied)
    ensures ForeignWaits(n, b, t) || (t in n.retained && n.retained[t].sender != b) ==>
              t in n'.retained && n'.retained[t].sender != b
    decreases |n.inbox|
  {
    if n.inbox == [] {
      es', n' := es, n;
      assert nodes[b := n] == nodes;
    } else {
      RunsOn(es, Receive(b));
      var mid, n1 := es + [Receive(b)], ReceiveNode(n, b);
      assert Leaves(mid, nodes[b := n1], store, log);
      es', n' := ReceiveAll(mid, nodes[b := n1], store, log, b, n1, t);
      assert nodes[b := n1][b := n'] == nodes[b := n'];
      DrainsOn(es, mid, es');
      if ForeignWaits(n, b, t) && !ForeignVersion(n.inbox[0], b, t) {
        var i :| 0 <= i < |n.inbox| && ForeignVersion(n.inbox[i], b, t);
        assert n1.inbox[i - 1] == n.inbox[i];
      }
    }
  }

  // Then, what goes wrong when a version is applied out of turn.

  lemma FlightSame(n: Node, n': Node, t: Topic)
    requires n'.hands == n.hands && n'.queue == n.queue && n'.unsaved == n.unsaved
    ensures InFlight(n', t) <==> InFlight(n, t)
  {
  }

  /** The broker that wrote the latest version `s` empties its inbox, and then everything has settled. */
  lemma {:induction false} Settle(start: seq<Event>, es: seq<Event>, nodes: map<nat, Node>, store: map<Topic, Msg>,
                                  log: seq<Msg>, b: nat, t: Topic, s: nat)
    requires DrainsTo(start, es) && Leaves(es, nodes, store, log) && b in nodes && nodes[b].phase.Listening?
    requires VersionAt(log, s, t) && log[s].sender == b && (forall r: nat :: VersionAt(log, r, t) ==> r <= s)
    requires forall a <- nodes :: !InFlight(nodes[a], t)
    requires nodes[b].unsaved.None?
    requires (t in store && store[t] == log[s]) ==> ForeignWaits(nodes[b], b, t)
    ensures !WillAgree(start, t)
  {
    var es', n' := ReceiveAll(es, nodes, store, log, b, nodes[b], t);
    DrainsOn(start, es, es');
    var c := After(es');
    FlightSame(nodes[b], n', t);
    assert Settled(c, s, t);
    assert !Agree(c, s, t);
  }

  ghost predicate Empty(n: Node) {
    n.hands == map[] && n.queue == [] && n.unsaved.None?
  }

  lemma EmptyFliesNothing(n: Node, t: Topic)
    requires Empty(n)
    ensures !InFlight(n, t)
  {
  }

  /** A version is applied while another one waits for a queue slot of the same broker. */
  lemma {:induction false} DivergeByHand(es: seq<Event>, c: Cluster, b: nat, t: Topic, s: nat, v: nat, w: nat)
    requires Runs(es) && After(es) == c && Up(c, b) && SendsOwn(c.nodes[b], b)
    requires Latest(c, s, t) && c.log[s].sender == b && (forall a <- c.nodes :: a != b ==> !InFlight(c.nodes[a], t))
    requires v in c.nodes[b].hands && w in c.nodes[b].hands && v != w
    requires Version(c.nodes[b].hands[v], t) && c.nodes[b].hands[v] != c.log[s]
    ensures !WillAgree(es, t)
  {
    var n := c.nodes[b];
    var es', store' := Overtake(es, c.nodes, c.store, c.log, b, n, v, w, t);
    var n' := n.(hands := map[], queue := [], unsaved := None);
    EmptyFliesNothing(n', t);
    Settle(es, es', c.nodes[b := n'], store', c.log, b, t, s);
  }

  /** A version is applied while one of another broker is on its way. */
  lemma {:induction false} DivergeByFlight(es: seq<Event>, c: Cluster, b: nat, a: nat, t: Topic, s: nat)
    requires Runs(es) && After(es) == c && Up(c, b) && SendsOwn(c.nodes[b], b)
    requires Latest(c, s, t) && c.log[s].sender == b
    requires a != b && Up(c, a) && SendsOwn(c.nodes[a], a) && InFlight(c.nodes[a], t)
    requires forall y <- c.nodes :: y != a && y != b ==> !InFlight(c.nodes[y], t)
    ensures !WillAgree(es, t)
  {
    var es1, store1 := FlushAll(es, c.nodes, c.store, c.log, b, c.nodes[b], {}, t);
    var nb := c.nodes[b].(hands := c.nodes[b].hands - (c.nodes[b].hands.Keys - {}), queue := [], unsaved := None);
    var nodes1 := c.nodes[b := nb];
    var es2, store2 := FlushAll(es1, nodes1, store1, c.log, a, nodes1[a], {}, t);
    var na := c.nodes[a].(hands := c.nodes[a].hands - (c.nodes[a].hands.Keys - {}), queue := [], unsaved := None);
    assert nb.hands == map[] && na.hands == map[];
    EmptyFliesNothing(nb, t);
    EmptyFliesNothing(na, t);
    DrainsOn(es, es1, es2);
    Settle(es, es2, nodes1[a := na], store2, c.log, b, t, s);
  }

  /** A version is applied while one of another broker waits in the inbox. */
  lemma {:induction false} DivergeByInbox(es: seq<Event>, c: Cluster, b: nat, t: Topic, s: nat)
    requires Runs(es) && After(es) == c && Up(c, b) && SendsOwn(c.nodes[b], b)
    requires Latest(c, s, t) && c.log[s].sender == b
    requires ForeignWaits(c.nodes[b], b, t) && forall y <- c.nodes :: y != b ==> !InFlight(c.nodes[y], t)
    ensures !WillAgree(es, t)
  {
    var es1, store1 := FlushAll(es, c.nodes, c.store, c.log, b, c.nodes[b], {}, t);
    var nb := c.nodes[b].(hands := c.nodes[b].hands - (c.nodes[b].hands.Keys - {}), queue := [], unsaved := None);
    assert nb.hands == map[];
    EmptyFliesNothing(nb, t);
    assert ForeignWaits(nb, b, t) by {
      var i :| 0 <= i < |c.nodes[b].inbox| && ForeignVersion(c.nodes[b].inbox[i], b, t);
      assert nb.inbox[i] == c.nodes[b].inbox[i];
    }
    Settle(es, es1, c.nodes[b := nb], store1, c.log, b, t, s);
  }

  /** The first version that is applied out of turn. */
  lemma {:induction false} OutOfTurn(es: seq<Event>, t: Topic) returns (k: nat)
    requires Runs(es) && !InTurn(es, t)
    ensures k < |es| && Runs(es[..k]) && InTurn(es[..k], t) && Enabled(After(es[..k]), es[k])
    ensures Runs(es[..k + 1]) && After(es[..k + 1]) == Step(After(es[..k]), es[k])
    ensures Writes(es[k], t) && !HasTurn(After(es[..k]), es[k].node, t)
  {
    var init := es[..|es| - 1];
    if InTurn(init, t) {
      k := |es| - 1;
      assert es[..k + 1] == es;
    } else {
      k := OutOfTurn(init, t);
      assert es[..k] == init[..k] && es[..k + 1] == init[..k + 1];
    }
  }

  lemma NewLatest(c: Cluster, e: Event, t: Topic)
    requires Enabled(c, e) && Writes(e, t)
    ensures Latest(Step(c, e), |c.log|, t) && Step(c, e).log[|c.log|] == NewMsg(c, e)
  {
  }

  lemma OwnMessages(n: Node, b: nat, log: seq<Msg>, published: set<nat>)
    requires NodeOk(n, b, log, published)
    ensures SendsOwn(n, b)
  {
  }

  /** What is known when a version is applied out of turn after all others were in turn. */
  ghost predicate Applied(es: seq<Event>, e: Event, c: Cluster, c': Cluster, t: Topic) {
    && Enabled(c, e) && Writes(e, t) && c' == Step(c, e) && Runs(es) && After(es) == c'
    && Exclusive(c.nodes, t) && Latest(c', |c.log|, t) && c'.log[|c.log|] == NewMsg(c, e)
    && SendsOwn(c'.nodes[e.node], e.node)
  }

  lemma HandOutOfTurn(es: seq<Event>, e: Event, c: Cluster, c': Cluster, t: Topic)
    requires Applied(es, e, c, c', t) && InHand(c.nodes[e.node], t)
    requires HandsOk(c.nodes[e.node], e.node, c.log, c.published)
    ensures !WillAgree(es, t)
  {
    var n := c.nodes[e.node];
    var v :| v in n.hands && Version(n.hands[v], t);
    assert InFlight(n, t) && Logged(n.hands[v], c.log);
    DivergeByHand(es, c', e.node, t, |c.log|, v, e.writer);
  }

  lemma FlightOutOfTurn(es: seq<Event>, e: Event, c: Cluster, c': Cluster, t: Topic, a: nat)
    requires Applied(es, e, c, c', t) && a in c.nodes && a != e.node && InFlight(c.nodes[a], t)
    requires SendsOwn(c.nodes[a], a) && c.nodes[a].phase.Listening?
    ensures !WillAgree(es, t)
  {
    DivergeByFlight(es, c', e.node, a, t, |c.log|);
  }

  lemma InboxOutOfTurn(es: seq<Event>, e: Event, c: Cluster, c': Cluster, t: Topic)
    requires Applied(es, e, c, c', t) && ForeignWaits(c.nodes[e.node], e.node, t)
    requires forall a <- c.nodes :: a != e.node ==> !InFlight(c.nodes[a], t)
    ensures !WillAgree(es, t)
  {
    var n, n' := c.nodes[e.node], c'.nodes[e.node];
    var i :| 0 <= i < |n.inbox| && ForeignVersion(n.inbox[i], e.node, t);
    assert n'.inbox[i] == n.inbox[i];
    DivergeByInbox(es, c', e.node, t, |c.log|);
  }

  /** Then some way to drain ends in disagreement. */
  lemma {:induction false} OutOfTurnDiverges(es: seq<Event>, e: Event, c: Cluster, t: Topic)
    requires Runs(es) && InTurn(es, t) && After(es) == c && Enabled(c, e) && Writes(e, t) && !HasTurn(c, e.node, t)
    requires Runs(es + [e]) && After(es + [e]) == Step(c, e)
    ensures !WillAgree(es + [e], t)
  {
    RunKeepsOrdered(es, t);
    StepKeepsInv(c, e);
    var c', b := Step(c, e), e.node;
    NewLatest(c, e, t);
    assert NodeOk(c'.nodes[b], b, c'.log, c'.published) && NodeOk(c.nodes[b], b, c.log, c.published);
    OwnMessages(c'.nodes[b], b, c'.log, c'.published);
    assert Applied(es + [e], e, c, c', t);
    if InHand(c.nodes[b], t) {
      HandOutOfTurn(es + [e], e, c, c', t);
    } else if a :| a in c.nodes && a != b && InFlight(c.nodes[a], t) {
      assert NodeOk(c.nodes[a], a, c.log, c.published);
      OwnMessages(c.nodes[a], a, c.log, c.published);
      FliesUp(c.nodes[a], t);
      FlightOutOfTurn(es + [e], e, c, c', t, a);
    } else {
      InboxOutOfTurn(es + [e], e, c, c', t);
    }
  }

  lemma FliesUp(n: Node, t: Topic)
    requires IdleUnlessListening(n) && InFlight(n, t)
    ensures n.phase.Listening?
  {
  }

  /**
   The exact condition, for every run in which no SET fails: from every point of the run, however it drains, all
   agree once it has settled, if and only if the retained publishes to the topic took turns.
   */
  lemma {:induction false} AgreesIffInTurn(es: seq<Event>, t: Topic)
    requires Runs(es) && NoFailedSet(es)
    ensures InTurn(es, t) <==> forall k :: 0 <= k <= |es| && Runs(es[..k]) ==> WillAgree(es[..k], t)
  {
    if InTurn(es, t) {
      forall k | 0 <= k <= |es| && Runs(es[..k]) ensures WillAgree(es[..k], t) {
        PrefixTakesTurns(es, k, t);
        forall es', s | DrainsTo(es[..k], es') && Settled(After(es'), s, t) ensures Agree(After(es'), s, t) {
          DrainingTakesTurns(es[..k], es', t);
          DrainingFailsNothing(es[..k], es');
          SettledAgrees(es', t, s);
        }
      }
    } else {
      var k := OutOfTurn(es, t);
      assert es[..k + 1] == es[..k] + [es[k]];
      OutOfTurnDiverges(es[..k], es[k], After(es[..k]), t);
    }
  }

  // Turns are not taken by themselves.

  /** The run leaves this node and this log. */
  ghost predicate LeavesNode(es: seq<Event>, b: nat, n: Node) {
    Runs(es) && b in After(es).nodes && After(es).nodes[b] == n
  }

  lemma StartAlone() returns (es: seq<Event>)
    ensures LeavesNode(es, 0, Node(Listening, map[], [], None, [], map[], [], {}))
    ensures forall e <- es :: e.Join? || e.Listen?
  {
    RunsOn([], Join(0, []));
    RunsOn([Join(0, [])], Listen(0));
    es := [Join(0, [])] + [Listen(0)];
  }

  lemma ApplyNow(es: seq<Event>, b: nat, n: Node, e: Event)
    requires LeavesNode(es, b, n) && n.phase.Listening? && e.Apply? && e.node == b && e.writer !in n.hands
    ensures LeavesNode(es + [e], b, ApplyNode(n, NewMsg(After(es), e)))
    ensures forall t :: Writes(e, t) && InHand(n, t) ==> !InTurn(es + [e], t)
  {
    RunsOn(es, e);
    assert (es + [e])[..|es|] == es;
  }

  /** Two connections of one broker need not take turns. */
  lemma TwoWritersOverlap(t: Topic, first: Payload, second: Payload) returns (es: seq<Event>)
    ensures Runs(es) && NoFailedSet(es) && !InTurn(es, t)
  {
    var e0, e1 := Apply(0, 1, t, first, true), Apply(0, 2, t, second, true);
    es := StartAlone();
    var n := Node(Listening, map[], [], None, [], map[], [], {});
    ApplyNow(es, 0, n, e0);
    n := ApplyNode(n, NewMsg(After(es), e0));
    assert 1 in n.hands && Version(n.hands[1], t);
    es := es + [e0];
    ApplyNow(es, 0, n, e1);
    es := es + [e1];
  }

  // Two brokers that write at the same time can disagree, though nothing is lost and nothing fails.

  /** The run leaves these two nodes and a log of length `n`. */
  ghost predicate Two(es: seq<Event>, a: nat, na: Node, b: nat, nb: Node, n: nat) {
    && Runs(es) && a != b && |After(es).log| == n
    && a in After(es).nodes && After(es).nodes[a] == na && b in After(es).nodes && After(es).nodes[b] == nb
  }

  /** Nothing fails, and every message reaches both brokers. */
  ghost predicate Lossless(es: seq<Event>, a: nat, b: nat) {
    forall e <- es :: (e.Publish? ==> {a, b} <= e.delivered) && (e.Save? ==> e.success)
  }

  ghost predicate GoesOn(es: seq<Event>, es': seq<Event>, a: nat, b: nat) {
    es <= es' && Lossless(es'[|es|..], a, b)
  }

  lemma ApplyAt(es: seq<Event>, a: nat, na: Node, b: nat, nb: Node, n: nat, m: Msg)
    requires Two(es, a, na, b, nb, n) && na.phase.Listening? && m.writer !in na.hands && m.serial == n && m.sender == a
    ensures Two(es + [Apply(a, m.writer, m.topic, m.payload, m.retain)], a, ApplyNode(na, m), b, nb, n + 1)
  {
    RunsOn(es, Apply(a, m.writer, m.topic, m.payload, m.retain));
  }

  lemma EnqueueAt(es: seq<Event>, a: nat, na: Node, b: nat, nb: Node, n: nat, w: nat)
    requires Two(es, a, na, b, nb, n) && na.phase.Listening? && w in na.hands && |na.queue| < QUEUE_CAPACITY
    ensures Two(es + [Enqueue(a, w)], a, EnqueueNode(na, w), b, nb, n)
  {
    RunsOn(es, Enqueue(a, w));
  }

  lemma PublishAt(es: seq<Event>, a: nat, na: Node, b: nat, nb: Node, n: nat)
    requires Two(es, a, na, b, nb, n) && na.phase.Listening? && nb.phase.Listening?
    requires na.unsaved.None? && na.queue != []
    ensures var m := na.queue[0];
            Two(es + [Publish(a, {a, b})], a, ReachedNode(SentNode(na), m), b, ReachedNode(nb, m), n)
  {
    RunsOn(es, Publish(a, {a, b}));
  }

  lemma SaveAt(es: seq<Event>, a: nat, na: Node, b: nat, nb: Node, n: nat)
    requires Two(es, a, na, b, nb, n) && na.phase.Listening? && na.unsaved.Some?
    ensures Two(es + [Save(a, true)], a, na.(unsaved := None), b, nb, n)
  {
    RunsOn(es, Save(a, true));
  }

  lemma ReceiveAt(es: seq<Event>, a: nat, na: Node, b: nat, nb: Node, n: nat)
    requires Two(es, a, na, b, nb, n) && na.phase.Listening? && na.unsaved.None? && na.inbox != []
    ensures Two(es + [Receive(a)], a, ReceiveNode(na, a), b, nb, n)
  {
    RunsOn(es, Receive(a));
  }

  ghost predicate Quiet(n: Node) {
    n.phase.Listening? && n.hands == map[] && n.queue == [] && n.unsaved.None? && n.inbox == []
  }

  /** A client's publish at node `a` goes all the way to the inboxes of both and to the store. */
  lemma SyncBoth(es: seq<Event>, a: nat, na: Node, b: nat, nb: Node, n: nat) returns (es': seq<Event>)
    requires Two(es, a, na, b, nb, n) && na.phase.Listening? && nb.phase.Listening?
    requires na.queue == [] && na.unsaved.None? && na.hands.Keys == {0} && na.hands[0].retain
    ensures GoesOn(es, es', a, b)
    ensures var m := na.hands[0];
            Two(es', a, na.(hands := map[], inbox := na.inbox + [m], heard := na.heard + {m.serial}),
                b, ReachedNode(nb, m), n)
  {
    var m, n1 := na.hands[0], EnqueueNode(na, 0);
    EnqueueAt(es, a, na, b, nb, n, 0);
    es' := es + [Enqueue(a, 0)];
    assert n1.queue == [m] && n1.hands == map[];
    PublishAt(es', a, n1, b, nb, n);
    es' := es' + [Publish(a, {a, b})];
    var n2 := ReachedNode(SentNode(n1), m);
    SaveAt(es', a, n2, b, ReachedNode(nb, m), n);
    es' := es' + [Save(a, true)];
    assert n2.queue == [];
    assert es'[|es|..] == [Enqueue(a, 0), Publish(a, {a, b}), Save(a, true)];
  }

  /** Node `a` takes the two messages in its inbox. */
  lemma ReceiveBoth(es: seq<Event>, a: nat, na: Node, b: nat, nb: Node, n: nat) returns (es': seq<Event>)
    requires Two(es, a, na, b, nb, n) && na.phase.Listening? && na.unsaved.None? && |na.inbox| == 2
    ensures GoesOn(es, es', a, b) && Two(es', a, ReceiveNode(ReceiveNode(na, a), a), b, nb, n)
  {
    ReceiveAt(es, a, na, b, nb, n);
    es' := es + [Receive(a)];
    ReceiveAt(es', a, ReceiveNode(na, a), b, nb, n);
    es' := es' + [Receive(a)];
    assert es'[|es|..] == [Receive(a), Receive(a)];
  }

  lemma GoesOnOn(es: seq<Event>, es': seq<Event>, es'': seq<Event>, a: nat, b: nat)
    requires GoesOn(es, es', a, b) && GoesOn(es', es'', a, b)
    ensures GoesOn(es, es'', a, b) && GoesOn(es, es'', b, a)
  {
    assert es''[|es|..] == es'[|es|..] + es''[|es'|..];
  }

  /** Both brokers apply a publish of a client of their own before they hear of the other's. */
  lemma ApplyBoth(es: seq<Event>, a: nat, na: Node, b: nat, nb: Node, n: nat, ma: Msg, mb: Msg)
    returns (es': seq<Event>)
    requires Two(es, a, na, b, nb, n) && Quiet(na) && Quiet(nb)
    requires ma == Msg(n, a, 0, ma.topic, ma.payload, true) && mb == Msg(n + 1, b, 0, mb.topic, mb.payload, true)
    ensures GoesOn(es, es', a, b) && Two(es', a, ApplyNode(na, ma), b, ApplyNode(nb, mb), n + 2)
  {
    ApplyAt(es, a, na, b, nb, n, ma);
    es' := es + [Apply(a, 0, ma.topic, ma.payload, true)];
    ApplyAt(es', b, nb, a, ApplyNode(na, ma), n + 1, mb);
    es' := es' + [Apply(b, 0, mb.topic, mb.payload, true)];
    assert es'[|es|..] == [Apply(a, 0, ma.topic, ma.payload, true), Apply(b, 0, mb.topic, mb.payload, true)];
  }

  /**
   From every reachable state with two idle brokers, a publish to the same topic at each can leave them with each
   other's message for good: both have drained, every message reached both and no SET failed.
   */
  lemma TwoBrokersDiverge(es: seq<Event>, a: nat, b: nat, t: Topic, p: Payload, q: Payload) returns (es': seq<Event>)
    requires Runs(es) && a != b && a in After(es).nodes && b in After(es).nodes
    requires Quiet(After(es).nodes[a]) && Quiet(After(es).nodes[b])
    ensures Runs(es') && GoesOn(es, es', a, b)
    ensures var nodes := After(es').nodes;
            && a in nodes && b in nodes && Quiet(nodes[a]) && Quiet(nodes[b])
            && t in nodes[a].retained && nodes[a].retained[t].payload == q
            && t in nodes[b].retained && nodes[b].retained[t].payload == p
  {
    var n, na, nb := |After(es).log|, After(es).nodes[a], After(es).nodes[b];
    var ma, mb := Msg(n, a, 0, t, p, true), Msg(n + 1, b, 0, t, q, true);
    var es1 := ApplyBoth(es, a, na, b, nb, n, ma, mb);
    var a1, b1 := ApplyNode(na, ma), ApplyNode(nb, mb);
    var es2 := SyncBoth(es1, a, a1, b, b1, n + 2);
    GoesOnOn(es, es1, es2, a, b);
    var a2 := a1.(hands := map[], inbox := a1.inbox + [ma], heard := a1.heard + {n});
    var b2 := ReachedNode(b1, ma);
    var es3 := SyncBoth(es2, b, b2, a, a2, n + 2);
    GoesOnOn(es2, es2, es3, b, a);
    GoesOnOn(es, es2, es3, a, b);
    var b3 := b2.(hands := map[], inbox := b2.inbox + [mb], heard := b2.heard + {n + 1});
    var a3 := ReachedNode(a2, mb);
    es' := DrainBoth(es3, a, a3, b, b3, n + 2, ma, mb);
    GoesOnOn(es, es3, es', a, b);
  }

  /** The inboxes hold both messages in the order of the bus: each broker ends with the other's. */
  lemma DrainBoth(es: seq<Event>, a: nat, na: Node, b: nat, nb: Node, n: nat, ma: Msg, mb: Msg)
    returns (es': seq<Event>)
    requires Two(es, a, na, b, nb, n) && na.inbox == [ma, mb] && nb.inbox == [ma, mb]
    requires Quiet(na.(inbox := [])) && Quiet(nb.(inbox := [])) && ma.sender == a && mb.sender == b
    requires ma.retain && mb.retain && ma.topic == mb.topic
    ensures Runs(es') && GoesOn(es, es', a, b)
    ensures var nodes := After(es').nodes;
            && a in nodes && b in nodes && Quiet(nodes[a]) && Quiet(nodes[b])
            && ma.topic in nodes[a].retained && nodes[a].retained[ma.topic] == mb
            && ma.topic in nodes[b].retained && nodes[b].retained[ma.topic] == ma
  {
    var mid := ReceiveBoth(es, a, na, b, nb, n);
    es' := ReceiveBoth(mid, b, nb, a, ReceiveNode(ReceiveNode(na, a), a), n);
    GoesOnOn(mid, mid, es', b, a);
    GoesOnOn(es, mid, es', a, b);
  }
}
