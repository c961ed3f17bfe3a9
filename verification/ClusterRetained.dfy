/**
 Retained messages in a cluster, for a topic whose retained publishes take turns, at one broker or at many:
 no broker ever goes back to an older one, and exactly which brokers hold the latest.
 */
module ClusterRetained {
  import opened Prelude
  import opened Packets
  import opened Cluster
  import opened ClusterOnce

  /** A version of the topic's retained message; versions are ordered by serial number. */
  predicate Version(m: Msg, t: Topic) {
    m.topic == t && m.retain
  }

  ghost predicate VersionAt(log: seq<Msg>, s: nat, t: Topic) {
    s < |log| && Version(log[s], t)
  }

  /** The version a broker or the store holds. */
  function Held(retained: map<Topic, Msg>, t: Topic): Option<nat> {
    if t in retained then Some(retained[t].serial) else None
  }

  // Taking turns.

  predicate Writes(e: Event, t: Topic) {
    e.Apply? && e.topic == t && e.retain
  }

  /** A version is applied and still waits for a queue slot. */
  ghost predicate InHand(n: Node, t: Topic) {
    exists w :: w in n.hands && Version(n.hands[w], t)
  }

  ghost predicate InQueue(n: Node, t: Topic) {
    exists i :: 0 <= i < |n.queue| && Version(n.queue[i], t)
  }

  /** A version is on its way from this broker to the bus or to the store. */
  ghost predicate InFlight(n: Node, t: Topic) {
    InHand(n, t) || InQueue(n, t) || (n.unsaved.Some? && Version(n.unsaved.value, t))
  }

  predicate ForeignVersion(m: Msg, b: nat, t: Topic) {
    Version(m, t) && m.sender != b
  }

  /** A version from another broker is in the inbox. */
  ghost predicate ForeignWaits(n: Node, b: nat, t: Topic) {
    exists i :: 0 <= i < |n.inbox| && ForeignVersion(n.inbox[i], b, t)
  }

  /**
   It is broker `b`'s turn: no version waits for one of its queue slots or in its inbox, and none is on its
   way from another broker.
   */
  ghost predicate HasTurn(c: Cluster, b: nat, t: Topic) {
    && b in c.nodes && !InHand(c.nodes[b], t) && !ForeignWaits(c.nodes[b], b, t)
    && forall a <- c.nodes :: a != b ==> !InFlight(c.nodes[a], t)
  }

  /** Every retained publish to the topic is applied in its broker's turn. */
  ghost predicate InTurn(es: seq<Event>, t: Topic)
    requires Runs(es)
  {
    es == [] ||
    (var init, last := es[..|es| - 1], es[|es| - 1];
     InTurn(init, t) && (Writes(last, t) ==> HasTurn(After(init), last.node, t)))
  }

  // The invariant of one node.

  /** At most one version is in hand, and all are sent in order, after all published ones. */
  ghost predicate SendOrder(n: Node, log: seq<Msg>, published: set<nat>, t: Topic) {
    && (forall v, w :: v in n.hands && w in n.hands && Version(n.hands[v], t) && Version(n.hands[w], t) ==> v == w)
    && (forall i, j :: 0 <= i < j < |n.queue| && Version(n.queue[i], t) && Version(n.queue[j], t) ==>
          n.queue[i].serial < n.queue[j].serial)
    && (forall i, w <- n.hands :: 0 <= i < |n.queue| && Version(n.queue[i], t) && Version(n.hands[w], t) ==>
          n.queue[i].serial < n.hands[w].serial)
    && (forall i, s <- published :: 0 <= i < |n.queue| && Version(n.queue[i], t) && VersionAt(log, s, t) ==>
          s < n.queue[i].serial)
    && (forall w <- n.hands, s <- published :: Version(n.hands[w], t) && VersionAt(log, s, t) ==>
          s < n.hands[w].serial)
  }

  /** The inbox brings newer versions in order. */
  ghost predicate InboxOrder(n: Node, b: nat, t: Topic) {
    && (forall i, j ::
          0 <= i < j < |n.inbox| && ForeignVersion(n.inbox[i], b, t) && ForeignVersion(n.inbox[j], b, t) ==>
            n.inbox[i].serial < n.inbox[j].serial)
    && (forall i :: 0 <= i < |n.inbox| && ForeignVersion(n.inbox[i], b, t) ==>
          n.inbox[i].serial in n.heard && (t in n.retained ==> n.retained[t].serial < n.inbox[i].serial))
  }

  ghost predicate Waits(n: Node, s: nat) {
    exists i :: 0 <= i < |n.inbox| && n.inbox[i].serial == s
  }

  /** A version that reached a broker is either waiting or superseded by what the broker holds. */
  ghost predicate Taken(n: Node, s: nat, t: Topic) {
    (t in n.retained && s <= n.retained[t].serial) || Waits(n, s)
  }

  /** A version is the broker's own and not published yet. */
  ghost predicate OnHand(n: Node, s: nat) {
    || (exists w <- n.hands :: n.hands[w].serial == s)
    || (exists i :: 0 <= i < |n.queue| && n.queue[i].serial == s)
  }

  /** What the broker holds is the newest of what it was told and of what it wrote. */
  ghost predicate Kept(n: Node, b: nat, log: seq<Msg>, published: set<nat>, t: Topic) {
    && n.heard <= published
    && (t in n.retained ==> n.retained[t].serial in n.heard || n.retained[t].sender == b)
    && (n.phase.Listening? && t in n.retained && n.retained[t].sender == b ==>
          n.retained[t].serial in published || OnHand(n, n.retained[t].serial))
    && (!n.phase.Down? ==> forall s <- n.heard :: VersionAt(log, s, t) && log[s].sender != b ==> Taken(n, s, t))
    && (n.phase.Listening? ==> HoldsOwn(n.retained, b, log, t))
  }

  ghost predicate HoldsOwn(retained: map<Topic, Msg>, b: nat, log: seq<Msg>, t: Topic) {
    forall s: nat :: VersionAt(log, s, t) && log[s].sender == b ==> t in retained && s <= retained[t].serial
  }

  /** A loading broker has written nothing, and does not hold what it has still to load. */
  ghost predicate LoadOrder(n: Node, b: nat, log: seq<Msg>, t: Topic) {
    n.phase.Loading? ==>
      && Distinct(n.phase.todo) && (t in n.phase.todo ==> t !in n.retained)
      && forall s :: 0 <= s < |log| ==> log[s].sender != b
  }

  ghost predicate NodeOrdered(n: Node, b: nat, log: seq<Msg>, published: set<nat>, t: Topic) {
    SendOrder(n, log, published, t) && InboxOrder(n, b, t) && Kept(n, b, log, published, t) && LoadOrder(n, b, log, t)
  }

  // The invariant of the cluster.

  /** Between a PUBLISH and its SET, the store is strictly behind and nothing newer is published. */
  ghost predicate SavingOk(n: Node, log: seq<Msg>, published: set<nat>, store: map<Topic, Msg>, t: Topic) {
    n.unsaved.Some? && Version(n.unsaved.value, t) ==>
      && (forall s <- published :: VersionAt(log, s, t) ==> s <= n.unsaved.value.serial)
      && (t in store ==> store[t].serial < n.unsaved.value.serial)
  }

  ghost predicate StoreOk(c: Cluster, t: Topic) {
    && c.saved <= c.published
    && forall s <- c.saved :: VersionAt(c.log, s, t) ==> t in c.store && s <= c.store[t].serial
  }

  /** Versions are on their way from one broker at a time. */
  ghost predicate Exclusive(nodes: map<nat, Node>, t: Topic) {
    forall a, b :: a in nodes && b in nodes && a != b && InFlight(nodes[a], t) ==> !InFlight(nodes[b], t)
  }

  ghost predicate AllOrdered(c: Cluster, t: Topic) {
    forall b <- c.nodes ::
      NodeOrdered(c.nodes[b], b, c.log, c.published, t) && SavingOk(c.nodes[b], c.log, c.published, c.store, t)
  }

  ghost predicate Ordered(c: Cluster, t: Topic) {
    StoreOk(c, t) && Exclusive(c.nodes, t) && AllOrdered(c, t)
  }

  // A node that takes a step of its own.

  lemma JoinOrdered(b: nat, keys: seq<Topic>, log: seq<Msg>, published: set<nat>, t: Topic)
    requires Distinct(keys) && forall s :: 0 <= s < |log| ==> log[s].sender != b
    ensures NodeOrdered(Node(Loading(keys), map[], [], None, [], map[], [], {}), b, log, published, t)
  {
  }

  lemma LoadOrdered(n: Node, b: nat, store: map<Topic, Msg>, readable: bool, log: seq<Msg>, published: set<nat>,
                    t: Topic)
    requires NodeOk(n, b, log, published) && NodeOrdered(n, b, log, published, t)
    requires n.phase.Loading? && n.phase.todo != []
    requires RetainedOk(store, log) && forall u <- store :: store[u].serial in published
    ensures NodeOrdered(LoadNode(n, store, readable), b, log, published, t)
  {
    var n', key := LoadNode(n, store, readable), n.phase.todo[0];
    assert n.inbox == [];
    assert forall u <- n'.phase.todo :: u in n.phase.todo && u != key;
    assert key != t ==> Held(n'.retained, t) == Held(n.retained, t);
    forall s | s in n'.heard && VersionAt(log, s, t) ensures Taken(n', s, t) {
      if s in n.heard {
        assert Taken(n, s, t);
      } else {
        assert Logged(store[key], log);
      }
    }
  }

  lemma ListenOrdered(n: Node, b: nat, log: seq<Msg>, published: set<nat>, t: Topic)
    requires RetainedOk(n.retained, log) && NodeOrdered(n, b, log, published, t) && n.phase.Loading?
    ensures NodeOrdered(n.(phase := Listening), b, log, published, t)
  {
    var n' := n.(phase := Listening);
    forall s | s in n.heard && VersionAt(log, s, t) && Taken(n, s, t) ensures Taken(n', s, t) { }
    assert t in n.retained ==> Logged(n.retained[t], log);
  }

  lemma ApplySends(n: Node, m: Msg, b: nat, log: seq<Msg>, published: set<nat>, t: Topic)
    requires QueueOk(n, b, log, published) && SendOrder(n, log, published, t)
    requires m.serial == |log| && (forall s <- published :: s < |log|) && (Version(m, t) ==> !InHand(n, t))
    ensures SendOrder(ApplyNode(n, m), log + [m], published, t)
  {
    var n', log' := ApplyNode(n, m), log + [m];
    forall v, w | v in n'.hands && w in n'.hands && Version(n'.hands[v], t) && Version(n'.hands[w], t) ensures v == w {
      assert v != m.writer ==> n'.hands[v] == n.hands[v];
      assert w != m.writer ==> n'.hands[w] == n.hands[w];
    }
    forall i, w | w in n'.hands && 0 <= i < |n'.queue| && Version(n'.queue[i], t) && Version(n'.hands[w], t)
      ensures n'.queue[i].serial < n'.hands[w].serial
    {
      assert Logged(n.queue[i], log);
    }
    assert forall s <- published :: VersionAt(log', s, t) <==> VersionAt(log, s, t);
  }

  lemma ApplyHolds(retained: map<Topic, Msg>, b: nat, log: seq<Msg>, m: Msg, t: Topic)
    requires HoldsOwn(retained, b, log, t) && m.serial == |log|
    ensures HoldsOwn(Keep(retained, m), b, log + [m], t)
  {
    forall s: nat | VersionAt(log + [m], s, t) && (log + [m])[s].sender == b
      ensures t in Keep(retained, m) && s <= Keep(retained, m)[t].serial
    {
      assert s < |log| ==> VersionAt(log, s, t);
    }
  }

  lemma ApplyOnHand(n: Node, m: Msg, s: nat)
    requires m.writer !in n.hands && (s == m.serial || OnHand(n, s))
    ensures OnHand(ApplyNode(n, m), s)
  {
    var n' := ApplyNode(n, m);
    if s == m.serial {
      assert n'.hands[m.writer].serial == s;
    } else if w :| w in n.hands && n.hands[w].serial == s {
      assert n'.hands[w].serial == s;
    }
  }

  lemma ApplyKept(n: Node, m: Msg, b: nat, log: seq<Msg>, published: set<nat>, t: Topic)
    requires RetainedOk(n.retained, log) && Kept(n, b, log, published, t) && n.phase.Listening?
    requires m.serial == |log| && m.sender == b && m.writer !in n.hands && (forall s <- published :: s < |log|)
    ensures Kept(ApplyNode(n, m), b, log + [m], published, t)
  {
    var n', log' := ApplyNode(n, m), log + [m];
    ApplyHolds(n.retained, b, log, m, t);
    forall s | s in n'.heard && VersionAt(log', s, t) && log'[s].sender != b ensures Taken(n', s, t) {
      assert VersionAt(log, s, t) && Taken(n, s, t);
      if t in n.retained && s <= n.retained[t].serial { assert Logged(n.retained[t], log); }
    }
    if t in n'.retained && n'.retained[t].sender == b && n'.retained[t].serial !in published {
      ApplyOnHand(n, m, n'.retained[t].serial);
    }
  }

  lemma ApplyOrdered(n: Node, m: Msg, b: nat, log: seq<Msg>, published: set<nat>, t: Topic)
    requires NodeOk(n, b, log, published) && NodeOrdered(n, b, log, published, t) && n.phase.Listening?
    requires m.serial == |log| && m.sender == b && m.writer !in n.hands && (forall s <- published :: s < |log|)
    requires Version(m, t) ==> !InHand(n, t) && !ForeignWaits(n, b, t)
    ensures NodeOrdered(ApplyNode(n, m), b, log + [m], published, t)
  {
    ApplySends(n, m, b, log, published, t);
    ApplyKept(n, m, b, log, published, t);
  }

  lemma EnqueueSends(n: Node, w: nat, log: seq<Msg>, published: set<nat>, t: Topic)
    requires SendOrder(n, log, published, t) && w in n.hands
    ensures SendOrder(EnqueueNode(n, w), log, published, t)
  {
  }

  lemma EnqueueOnHand(n: Node, w: nat, s: nat)
    requires w in n.hands && OnHand(n, s)
    ensures OnHand(EnqueueNode(n, w), s)
  {
    var n' := EnqueueNode(n, w);
    assert n'.queue[|n.queue|] == n.hands[w];
    if v :| v in n.hands && n.hands[v].serial == s {
      if v != w { assert n'.hands[v].serial == s; }
    } else if i :| 0 <= i < |n.queue| && n.queue[i].serial == s {
      assert n'.queue[i].serial == s;
    }
  }

  /** The broker's part that does not depend on what it sends. */
  lemma KeptSame(n: Node, n': Node, b: nat, log: seq<Msg>, published: set<nat>, t: Topic)
    requires Kept(n, b, log, published, t)
    requires n'.inbox == n.inbox && n'.retained == n.retained && n'.heard == n.heard && n'.phase == n.phase
    requires forall s :: OnHand(n, s) ==> OnHand(n', s) || s in published
    ensures Kept(n', b, log, published, t)
  {
    forall s | s in n.heard && VersionAt(log, s, t) && Taken(n, s, t) ensures Taken(n', s, t) { }
  }

  lemma EnqueueOrdered(n: Node, w: nat, b: nat, log: seq<Msg>, published: set<nat>, t: Topic)
    requires NodeOrdered(n, b, log, published, t) && w in n.hands
    ensures NodeOrdered(EnqueueNode(n, w), b, log, published, t)
  {
    EnqueueSends(n, w, log, published, t);
    forall s | OnHand(n, s) ensures OnHand(EnqueueNode(n, w), s) { EnqueueOnHand(n, w, s); }
    KeptSame(n, EnqueueNode(n, w), b, log, published, t);
  }

  lemma SaveOrdered(n: Node, b: nat, log: seq<Msg>, published: set<nat>, t: Topic)
    requires NodeOrdered(n, b, log, published, t)
    ensures NodeOrdered(n.(unsaved := None), b, log, published, t)
  {
    var n' := n.(unsaved := None);
    forall s | OnHand(n, s) ensures OnHand(n', s) { }
    KeptSame(n, n', b, log, published, t);
  }

  lemma ReceiveInbox(n: Node, b: nat, log: seq<Msg>, published: set<nat>, t: Topic)
    requires InboxOk(n, b, log, published) && InboxOrder(n, b, t) && n.inbox != []
    ensures InboxOrder(ReceiveNode(n, b), b, t)
  {
    var n' := ReceiveNode(n, b);
    forall i | 0 <= i < |n'.inbox| ensures n'.inbox[i] == n.inbox[i + 1] { }
  }

  lemma ReceiveTaken(n: Node, b: nat, log: seq<Msg>, published: set<nat>, t: Topic, s: nat)
    requires InboxOk(n, b, log, published) && InboxOrder(n, b, t) && n.inbox != []
    requires VersionAt(log, s, t) && log[s].sender != b && Taken(n, s, t)
    ensures Taken(ReceiveNode(n, b), s, t)
  {
    var n', m := ReceiveNode(n, b), n.inbox[0];
    assert Logged(m, log);
    if Waits(n, s) {
      var i :| 0 <= i < |n.inbox| && n.inbox[i].serial == s;
      assert Logged(n.inbox[i], log);
      if i > 0 { assert n'.inbox[i - 1].serial == s; }
    }
  }

  lemma ReceiveKept(n: Node, b: nat, log: seq<Msg>, published: set<nat>, t: Topic)
    requires InboxOk(n, b, log, published) && InboxOrder(n, b, t) && Kept(n, b, log, published, t)
    requires n.phase.Listening? && n.inbox != []
    ensures Kept(ReceiveNode(n, b), b, log, published, t)
  {
    var n', m := ReceiveNode(n, b), n.inbox[0];
    forall s | s in n.heard && VersionAt(log, s, t) && log[s].sender != b ensures Taken(n', s, t) {
      ReceiveTaken(n, b, log, published, t, s);
    }
    assert ForeignVersion(m, b, t) || Held(n'.retained, t) == Held(n.retained, t);
    assert forall s :: OnHand(n, s) ==> OnHand(n', s);
  }

  lemma ReceiveOrdered(n: Node, b: nat, log: seq<Msg>, published: set<nat>, t: Topic)
    requires InboxOk(n, b, log, published) && NodeOrdered(n, b, log, published, t)
    requires n.phase.Listening? && n.inbox != []
    ensures NodeOrdered(ReceiveNode(n, b), b, log, published, t)
  {
    ReceiveInbox(n, b, log, published, t);
    ReceiveKept(n, b, log, published, t);
  }

  lemma CrashOrdered(n: Node, b: nat, log: seq<Msg>, published: set<nat>, t: Topic)
    requires RetainedOk(n.retained, log) && NodeOrdered(n, b, log, published, t)
    ensures NodeOrdered(CrashNode(n), b, log, published, t)
  {
  }

  // A node while the log and the bus go on.

  /** Another broker applies a publish. */
  lemma LogFrame(n: Node, b: nat, log: seq<Msg>, m: Msg, published: set<nat>, t: Topic)
    requires NodeOrdered(n, b, log, published, t) && (forall s <- published :: s < |log|) && m.sender != b
    ensures NodeOrdered(n, b, log + [m], published, t)
  {
    var log' := log + [m];
    assert forall s <- published :: VersionAt(log', s, t) <==> VersionAt(log, s, t);
    forall s: nat | VersionAt(log', s, t) && log'[s].sender == b ensures VersionAt(log, s, t) && log[s].sender == b { }
  }

  /** `m` is newer than all published versions, if it is a version. */
  ghost predicate Newest(m: Msg, log: seq<Msg>, published: set<nat>, t: Topic) {
    && Logged(m, log)
    && (Version(m, t) ==> forall s <- published :: VersionAt(log, s, t) ==> s < m.serial)
  }

  lemma BusSends(n: Node, m: Msg, log: seq<Msg>, published: set<nat>, t: Topic)
    requires SendOrder(n, log, published, t) && Logged(m, log)
    requires Version(m, t) ==> !InHand(n, t) && !InQueue(n, t)
    ensures SendOrder(n, log, published + {m.serial}, t)
  {
  }

  lemma BusKept(n: Node, b: nat, log: seq<Msg>, published: set<nat>, s: nat, t: Topic)
    requires Kept(n, b, log, published, t)
    ensures Kept(n, b, log, published + {s}, t)
  {
  }

  /** Another broker's message is published and does not reach this one. */
  lemma BusFrame(n: Node, b: nat, m: Msg, log: seq<Msg>, published: set<nat>, t: Topic)
    requires NodeOrdered(n, b, log, published, t) && Logged(m, log)
    requires Version(m, t) ==> !InHand(n, t) && !InQueue(n, t)
    ensures NodeOrdered(n, b, log, published + {m.serial}, t)
  {
    BusSends(n, m, log, published, t);
    BusKept(n, b, log, published, m.serial, t);
  }

  /** A version that is newer than all published ones is newer than what the broker holds and has waiting. */
  lemma ReachInbox(n: Node, b: nat, m: Msg, log: seq<Msg>, published: set<nat>, t: Topic)
    requires InboxOk(n, b, log, published) && RetainedOk(n.retained, log) && n.phase.Listening?
    requires InboxOrder(n, b, t) && Kept(n, b, log, published, t) && Newest(m, log, published, t)
    requires ForeignVersion(m, b, t) && t in n.retained && n.retained[t].sender == b ==>
               n.retained[t].serial in published
    ensures InboxOrder(ReachedNode(n, m), b, t)
  {
    if ForeignVersion(m, b, t) {
      assert t in n.retained ==> Logged(n.retained[t], log) && n.retained[t].serial in published;
      forall i | 0 <= i < |n.inbox| && ForeignVersion(n.inbox[i], b, t) ensures n.inbox[i].serial < m.serial {
        assert Logged(n.inbox[i], log);
      }
    }
  }

  lemma ReachKept(n: Node, b: nat, m: Msg, log: seq<Msg>, published: set<nat>, t: Topic)
    requires Kept(n, b, log, published, t) && m.serial in published
    ensures Kept(ReachedNode(n, m), b, log, published, t)
  {
    var n' := ReachedNode(n, m);
    assert n'.inbox[|n.inbox|] == m;
    forall s | s in n'.heard && VersionAt(log, s, t) && log[s].sender != b && !n.phase.Down? ensures Taken(n', s, t) {
      if s in n.heard && s != m.serial {
        assert Taken(n, s, t);
        if Waits(n, s) {
          var i :| 0 <= i < |n.inbox| && n.inbox[i].serial == s;
          assert n'.inbox[i].serial == s;
        }
      }
    }
    assert forall s :: OnHand(n, s) ==> OnHand(n', s);
  }

  /** Another broker's message is published and reaches this one. */
  lemma BusReach(n: Node, b: nat, m: Msg, log: seq<Msg>, published: set<nat>, t: Topic)
    requires NodeOk(n, b, log, published) && NodeOrdered(n, b, log, published, t) && n.phase.Listening?
    requires Newest(m, log, published, t) && (Version(m, t) ==> !InHand(n, t) && !InQueue(n, t))
    ensures NodeOrdered(ReachedNode(n, m), b, log, published + {m.serial}, t)
  {
    BusFrame(n, b, m, log, published, t);
    if Version(m, t) && t in n.retained && n.retained[t].sender == b && n.retained[t].serial !in published {
      OnHandFlies(n, b, log, published, n.retained[t].serial, t);
    }
    ReachInbox(n, b, m, log, published, t);
    ReachKept(n, b, m, log, published + {m.serial}, t);
  }

  /** A version on hand is in flight. */
  lemma OnHandFlies(n: Node, b: nat, log: seq<Msg>, published: set<nat>, s: nat, t: Topic)
    requires HandsOk(n, b, log, published) && QueueOk(n, b, log, published) && VersionAt(log, s, t) && OnHand(n, s)
    ensures InHand(n, t) || InQueue(n, t)
  {
    if w :| w in n.hands && n.hands[w].serial == s {
      assert Logged(n.hands[w], log);
    } else {
      var i :| 0 <= i < |n.queue| && n.queue[i].serial == s;
      assert Logged(n.queue[i], log);
    }
  }

  lemma SendSends(n: Node, b: nat, log: seq<Msg>, published: set<nat>, t: Topic)
    requires QueueOk(n, b, log, published) && SendOrder(n, log, published, t) && n.queue != []
    ensures SendOrder(SentNode(n), log, published + {n.queue[0].serial}, t)
  {
    var n', m := SentNode(n), n.queue[0];
    assert Logged(m, log);
    forall i | 0 <= i < |n'.queue| ensures n'.queue[i] == n.queue[i + 1] { }
  }

  lemma SendOnHand(n: Node, s: nat)
    requires n.queue != [] && OnHand(n, s)
    ensures OnHand(SentNode(n), s) || s == n.queue[0].serial
  {
    var n' := SentNode(n);
    if i :| 0 <= i < |n.queue| && n.queue[i].serial == s {
      if i > 0 { assert n'.queue[i - 1].serial == s; }
    } else {
      var w :| w in n.hands && n.hands[w].serial == s;
      assert n'.hands[w].serial == s;
    }
  }

  /** The publisher's side of a PUBLISH. */
  lemma SendOrdered(n: Node, b: nat, log: seq<Msg>, published: set<nat>, t: Topic)
    requires NodeOk(n, b, log, published) && NodeOrdered(n, b, log, published, t) && n.queue != []
    ensures NodeOrdered(SentNode(n), b, log, published + {n.queue[0].serial}, t)
  {
    var more := published + {n.queue[0].serial};
    SendSends(n, b, log, published, t);
    BusKept(n, b, log, published, n.queue[0].serial, t);
    forall s | OnHand(n, s) ensures OnHand(SentNode(n), s) || s in more { SendOnHand(n, s); }
    KeptSame(n, SentNode(n), b, log, more, t);
  }

  lemma EchoInbox(n: Node, b: nat, m: Msg, t: Topic)
    requires InboxOrder(n, b, t) && m.sender == b
    ensures InboxOrder(ReachedNode(n, m), b, t)
  {
  }

  /** The publisher's own echo is no foreign version. */
  lemma SendReach(n: Node, b: nat, log: seq<Msg>, published: set<nat>, t: Topic)
    requires NodeOk(n, b, log, published) && NodeOrdered(n, b, log, published, t) && n.queue != []
    ensures NodeOrdered(ReachedNode(SentNode(n), n.queue[0]), b, log, published + {n.queue[0].serial}, t)
  {
    var n1, m, more := SentNode(n), n.queue[0], published + {n.queue[0].serial};
    SendOrdered(n, b, log, published, t);
    EchoInbox(n1, b, m, t);
    ReachKept(n1, b, m, log, more, t);
    ReachSends(n1, m, log, more, t);
  }

  lemma ReachSends(n: Node, m: Msg, log: seq<Msg>, published: set<nat>, t: Topic)
    requires SendOrder(n, log, published, t)
    ensures SendOrder(ReachedNode(n, m), log, published, t)
  {
  }

  /** One node in the step that publishes `m`. */
  lemma PublishOrdered(n: Node, b: nat, m: Msg, own: bool, reached: bool, log: seq<Msg>, published: set<nat>, t: Topic)
    requires NodeOk(n, b, log, published) && NodeOrdered(n, b, log, published, t) && Newest(m, log, published, t)
    requires if own then n.queue != [] && n.queue[0] == m else Version(m, t) ==> !InFlight(n, t)
    ensures NodeOrdered(PublishNode(n, m, own, reached), b, log, published + {m.serial}, t)
  {
    if own {
      SendOrdered(n, b, log, published, t);
      if reached { SendReach(n, b, log, published, t); }
    } else if reached && n.phase.Listening? {
      BusReach(n, b, m, log, published, t);
    } else {
      BusFrame(n, b, m, log, published, t);
    }
  }

  // Versions in flight.

  lemma FlightEnqueue(n: Node, w: nat, t: Topic)
    requires w in n.hands && InFlight(EnqueueNode(n, w), t)
    ensures InFlight(n, t)
  {
    var n' := EnqueueNode(n, w);
    if v :| v in n'.hands && Version(n'.hands[v], t) {
      assert Version(n.hands[v], t);
    } else if i :| 0 <= i < |n'.queue| && Version(n'.queue[i], t) {
      if i < |n.queue| { assert Version(n.queue[i], t); } else { assert Version(n.hands[w], t); }
    }
  }

  lemma FlightPublish(n: Node, m: Msg, own: bool, reached: bool, t: Topic)
    requires (own ==> n.queue != [] && n.queue[0] == m) && InFlight(PublishNode(n, m, own, reached), t)
    ensures InFlight(n, t)
  {
    var n' := PublishNode(n, m, own, reached);
    if v :| v in n'.hands && Version(n'.hands[v], t) {
      assert Version(n.hands[v], t);
    } else if i :| 0 <= i < |n'.queue| && Version(n'.queue[i], t) {
      if own { assert Version(n.queue[i + 1], t); } else { assert Version(n.queue[i], t); }
    } else if own {
      assert Version(n.queue[0], t);
    }
  }

  /** Only an application of a version puts a version in flight. */
  lemma FlightStep(c: Cluster, e: Event, t: Topic, b: nat)
    requires Enabled(c, e) && b in Step(c, e).nodes && InFlight(Step(c, e).nodes[b], t)
    requires !(Writes(e, t) && e.node == b)
    ensures b in c.nodes && InFlight(c.nodes[b], t)
  {
    var n' := Step(c, e).nodes[b];
    if e.Publish? {
      FlightPublish(c.nodes[b], c.nodes[e.node].queue[0], b == e.node, b in e.delivered, t);
    } else if e.node == b && e.Enqueue? {
      FlightEnqueue(c.nodes[b], e.writer, t);
    } else if e.node == b && e.Apply? {
      FlightApply(c.nodes[b], NewMsg(c, e), t);
    } else if b in c.nodes {
      assert n'.hands.Keys <= c.nodes[b].hands.Keys;
      assert forall w <- n'.hands :: n'.hands[w] == c.nodes[b].hands[w];
      assert n'.queue == c.nodes[b].queue || n'.queue == [];
    }
  }

  lemma FlightApply(n: Node, m: Msg, t: Topic)
    requires !Version(m, t) && InFlight(ApplyNode(n, m), t)
    ensures InFlight(n, t)
  {
    var n' := ApplyNode(n, m);
    if v :| v in n'.hands && Version(n'.hands[v], t) {
      assert v != m.writer && Version(n.hands[v], t);
    } else if i :| 0 <= i < |n'.queue| && Version(n'.queue[i], t) {
      assert Version(n.queue[i], t);
    }
  }

  lemma StepKeepsExclusive(c: Cluster, e: Event, t: Topic)
    requires Enabled(c, e) && Exclusive(c.nodes, t) && (Writes(e, t) ==> HasTurn(c, e.node, t))
    ensures Exclusive(Step(c, e).nodes, t)
  {
    var c' := Step(c, e);
    forall a, b | a in c'.nodes && b in c'.nodes && a != b && InFlight(c'.nodes[a], t)
      ensures !InFlight(c'.nodes[b], t)
    {
      if InFlight(c'.nodes[b], t) {
        if !(Writes(e, t) && e.node == a) { FlightStep(c, e, t, a); }
        if !(Writes(e, t) && e.node == b) { FlightStep(c, e, t, b); }
      }
    }
  }

  // Every node, in every step.

  /** The node that takes the step, for every step but a PUBLISH. */
  lemma OwnOrdered(c: Cluster, e: Event, t: Topic)
    requires Enabled(c, e) && !e.Publish? && GlobalOk(c)
    requires e.node in c.nodes ==>
               NodeOk(c.nodes[e.node], e.node, c.log, c.published) &&
               NodeOrdered(c.nodes[e.node], e.node, c.log, c.published, t)
    requires Writes(e, t) ==> HasTurn(c, e.node, t)
    ensures NodeOrdered(Step(c, e).nodes[e.node], e.node, Step(c, e).log, c.published, t)
  {
    var b := e.node;
    match e {
      case Join(_, keys) => JoinOrdered(b, keys, c.log, c.published, t);
      case Load(_, readable) => LoadOrdered(c.nodes[b], b, c.store, readable, c.log, c.published, t);
      case Listen(_) => ListenOrdered(c.nodes[b], b, c.log, c.published, t);
      case Apply(_, _, _, _, _) => ApplyOrdered(c.nodes[b], NewMsg(c, e), b, c.log, c.published, t);
      case Enqueue(_, w) => EnqueueOrdered(c.nodes[b], w, b, c.log, c.published, t);
      case Save(_, _) => SaveOrdered(c.nodes[b], b, c.log, c.published, t);
      case Receive(_) => ReceiveOrdered(c.nodes[b], b, c.log, c.published, t);
      case Crash(_) => CrashOrdered(c.nodes[b], b, c.log, c.published, t);
    }
  }

  lemma OtherOrdered(c: Cluster, e: Event, t: Topic, b: nat)
    requires Enabled(c, e) && !e.Publish? && GlobalOk(c) && b in c.nodes && b != e.node
    requires NodeOrdered(c.nodes[b], b, c.log, c.published, t)
    ensures b in Step(c, e).nodes && NodeOrdered(Step(c, e).nodes[b], b, Step(c, e).log, c.published, t)
  {
    if e.Apply? {
      LogFrame(c.nodes[b], b, c.log, NewMsg(c, e), c.published, t);
    }
  }

  /** The next message to be published is newer than all published versions, if it is one. */
  lemma PublishedInOrder(n: Node, b: nat, log: seq<Msg>, published: set<nat>, t: Topic)
    requires QueueOk(n, b, log, published) && SendOrder(n, log, published, t) && n.queue != []
    ensures Newest(n.queue[0], log, published, t)
  {
    assert Logged(n.queue[0], log);
  }

  lemma PublishKeepsNodes(c: Cluster, e: Event, t: Topic, y: nat)
    requires Enabled(c, e) && e.Publish? && y in c.nodes
    requires NodeOk(c.nodes[e.node], e.node, c.log, c.published) && NodeOk(c.nodes[y], y, c.log, c.published)
    requires NodeOrdered(c.nodes[e.node], e.node, c.log, c.published, t)
    requires NodeOrdered(c.nodes[y], y, c.log, c.published, t)
    requires y != e.node && InFlight(c.nodes[e.node], t) ==> !InFlight(c.nodes[y], t)
    ensures y in Step(c, e).nodes && NodeOrdered(Step(c, e).nodes[y], y, c.log, Step(c, e).published, t)
  {
    var n, m := c.nodes[e.node], c.nodes[e.node].queue[0];
    PublishedInOrder(n, e.node, c.log, c.published, t);
    assert Version(m, t) ==> InFlight(n, t);
    PublishOrdered(c.nodes[y], y, m, y == e.node, y in e.delivered, c.log, c.published, t);
  }

  lemma LocalKeepsNodes(c: Cluster, e: Event, t: Topic, b: nat)
    requires Enabled(c, e) && !e.Publish? && b in Step(c, e).nodes && GlobalOk(c)
    requires Writes(e, t) ==> HasTurn(c, e.node, t)
    requires b in c.nodes ==>
               NodeOk(c.nodes[b], b, c.log, c.published) && NodeOrdered(c.nodes[b], b, c.log, c.published, t)
    ensures NodeOrdered(Step(c, e).nodes[b], b, Step(c, e).log, c.published, t)
  {
    if b == e.node {
      OwnOrdered(c, e, t);
    } else {
      OtherOrdered(c, e, t, b);
    }
  }

  lemma StepKeepsNodes(c: Cluster, e: Event, t: Topic, y: nat)
    requires Enabled(c, e) && y in Step(c, e).nodes && GlobalOk(c) && (Writes(e, t) ==> HasTurn(c, e.node, t))
    requires forall b :: b in c.nodes && (b == y || b == e.node) ==>
               NodeOk(c.nodes[b], b, c.log, c.published) && NodeOrdered(c.nodes[b], b, c.log, c.published, t)
    requires Exclusive(c.nodes, t)
    ensures NodeOrdered(Step(c, e).nodes[y], y, Step(c, e).log, Step(c, e).published, t)
  {
    if e.Publish? {
      PublishKeepsNodes(c, e, t, y);
    } else {
      LocalKeepsNodes(c, e, t, y);
    }
  }

  // The store.

  lemma PublishSaving(n: Node, m: Msg, own: bool, reached: bool, log: seq<Msg>, published: set<nat>,
                      store: map<Topic, Msg>, t: Topic)
    requires SavingOk(n, log, published, store, t) && RetainedOk(store, log) && Newest(m, log, published, t)
    requires forall u <- store :: store[u].serial in published
    requires if own then n.queue != [] && n.queue[0] == m else Version(m, t) ==> !InFlight(n, t)
    ensures SavingOk(PublishNode(n, m, own, reached), log, published + {m.serial}, store, t)
  {
    assert t in store ==> VersionAt(log, store[t].serial, t);
  }

  /** A SET by one broker while no other has a version in flight. */
  lemma SaveSaving(n: Node, m: Msg, log: seq<Msg>, published: set<nat>, store: map<Topic, Msg>, t: Topic)
    requires SavingOk(n, log, published, store, t) && (Version(m, t) ==> !InFlight(n, t)) && m.retain
    ensures SavingOk(n, log, published, store[m.topic := m], t)
  {
  }

  lemma LogSaving(n: Node, n': Node, log: seq<Msg>, m: Msg, published: set<nat>, store: map<Topic, Msg>, t: Topic)
    requires SavingOk(n, log, published, store, t) && n'.unsaved == n.unsaved && (forall s <- published :: s < |log|)
    ensures SavingOk(n', log + [m], published, store, t)
  {
    assert forall s <- published :: VersionAt(log + [m], s, t) <==> VersionAt(log, s, t);
  }

  lemma PublishKeepsSaving(c: Cluster, e: Event, t: Topic, b: nat)
    requires Enabled(c, e) && e.Publish? && b in c.nodes && GlobalOk(c) && Exclusive(c.nodes, t)
    requires QueueOk(c.nodes[e.node], e.node, c.log, c.published)
    requires SendOrder(c.nodes[e.node], c.log, c.published, t)
    requires SavingOk(c.nodes[b], c.log, c.published, c.store, t)
    ensures b in Step(c, e).nodes && SavingOk(Step(c, e).nodes[b], c.log, Step(c, e).published, c.store, t)
  {
    var n, m := c.nodes[e.node], c.nodes[e.node].queue[0];
    PublishedInOrder(n, e.node, c.log, c.published, t);
    assert Version(m, t) ==> InFlight(n, t);
    PublishSaving(c.nodes[b], m, b == e.node, b in e.delivered, c.log, c.published, c.store, t);
  }

  lemma SaveKeepsSaving(c: Cluster, e: Event, t: Topic, b: nat)
    requires e.Save? && Enabled(c, e) && b in c.nodes && c.nodes[e.node].unsaved.value.retain
    requires SavingOk(c.nodes[b], c.log, c.published, c.store, t) && Exclusive(c.nodes, t)
    ensures SavingOk(Step(c, e).nodes[b], c.log, c.published, Step(c, e).store, t)
  {
    var m := c.nodes[e.node].unsaved.value;
    if b != e.node {
      assert Version(m, t) ==> InFlight(c.nodes[e.node], t);
      SaveSaving(c.nodes[b], m, c.log, c.published, c.store, t);
    }
  }

  lemma QuietKeepsSaving(c: Cluster, e: Event, t: Topic, b: nat)
    requires !e.Save? && !e.Publish? && !e.Apply? && Enabled(c, e) && b in Step(c, e).nodes
    requires b in c.nodes ==> SavingOk(c.nodes[b], c.log, c.published, c.store, t)
    ensures SavingOk(Step(c, e).nodes[b], c.log, c.published, c.store, t)
  {
  }

  lemma ApplyKeepsSaving(c: Cluster, e: Event, t: Topic, b: nat)
    requires e.Apply? && Enabled(c, e) && GlobalOk(c) && b in c.nodes
    requires SavingOk(c.nodes[b], c.log, c.published, c.store, t)
    ensures SavingOk(Step(c, e).nodes[b], Step(c, e).log, c.published, c.store, t)
  {
    LogSaving(c.nodes[b], Step(c, e).nodes[b], c.log, NewMsg(c, e), c.published, c.store, t);
  }

  lemma StepKeepsSaving(c: Cluster, e: Event, t: Topic, b: nat)
    requires Enabled(c, e) && b in Step(c, e).nodes && GlobalOk(c) && Exclusive(c.nodes, t)
    requires e.Publish? || e.Save? ==>
               NodeOk(c.nodes[e.node], e.node, c.log, c.published) && SendOrder(c.nodes[e.node], c.log, c.published, t)
    requires b in c.nodes ==> SavingOk(c.nodes[b], c.log, c.published, c.store, t)
    ensures SavingOk(Step(c, e).nodes[b], Step(c, e).log, Step(c, e).published, Step(c, e).store, t)
  {
    if e.Publish? {
      PublishKeepsSaving(c, e, t, b);
    } else if e.Save? {
      SaveKeepsSaving(c, e, t, b);
    } else if e.Apply? {
      ApplyKeepsSaving(c, e, t, b);
    } else {
      QuietKeepsSaving(c, e, t, b);
    }
  }

  lemma SaveKeepsStore(c: Cluster, m: Msg, t: Topic)
    requires StoreOk(c, t) && Logged(m, c.log) && m.serial in c.published && m.retain
    requires Version(m, t) ==> forall s <- c.published :: VersionAt(c.log, s, t) ==> s <= m.serial
    ensures StoreOk(c.(store := c.store[m.topic := m], saved := c.saved + {m.serial}), t)
  {
  }

  lemma StepKeepsStore(c: Cluster, e: Event, t: Topic)
    requires Enabled(c, e) && StoreOk(c, t) && GlobalOk(c)
    requires e.Save? ==>
               UnsavedOk(c.nodes[e.node], e.node, c.log, c.published) &&
               SavingOk(c.nodes[e.node], c.log, c.published, c.store, t)
    ensures StoreOk(Step(c, e), t)
  {
    var c' := Step(c, e);
    if e.Save? && e.success {
      SaveKeepsStore(c.(nodes := c'.nodes), c.nodes[e.node].unsaved.value, t);
    } else if e.Apply? {
      assert forall s <- c.saved :: VersionAt(c'.log, s, t) <==> VersionAt(c.log, s, t);
    }
  }

  lemma StepKeepsOrdered(c: Cluster, e: Event, t: Topic)
    requires Inv(c) && Ordered(c, t) && Enabled(c, e) && (Writes(e, t) ==> HasTurn(c, e.node, t))
    ensures Ordered(Step(c, e), t)
  {
    var c' := Step(c, e);
    if e.node in c.nodes { assert NodeOk(c.nodes[e.node], e.node, c.log, c.published); }
    StepKeepsStore(c, e, t);
    StepKeepsExclusive(c, e, t);
    forall b | b in c'.nodes
      ensures NodeOrdered(c'.nodes[b], b, c'.log, c'.published, t)
      ensures SavingOk(c'.nodes[b], c'.log, c'.published, c'.store, t)
    {
      if b in c.nodes { assert NodeOk(c.nodes[b], b, c.log, c.published); }
      StepKeepsNodes(c, e, t, b);
      StepKeepsSaving(c, e, t, b);
    }
  }

  lemma {:induction false} RunKeepsOrdered(es: seq<Event>, t: Topic)
    requires Runs(es) && InTurn(es, t)
    ensures Inv(After(es)) && Ordered(After(es), t)
  {
    RunKeepsInv(es);
    if es != [] {
      var init := es[..|es| - 1];
      RunKeepsOrdered(init, t);
      StepKeepsOrdered(After(init), es[|es| - 1], t);
    }
  }

  // Special cases: one broker, and one connection.

  /** All retained publishes to the topic come from one broker, and none while an earlier one waits there. */
  ghost predicate OneBroker(es: seq<Event>, t: Topic, origin: nat)
    requires Runs(es)
  {
    es == [] ||
    (var init, last := es[..|es| - 1], es[|es| - 1];
     OneBroker(init, t, origin) && (Writes(last, t) ==> last.node == origin && !InHand(After(init).nodes[origin], t)))
  }

  lemma {:induction false} VersionsFrom(es: seq<Event>, t: Topic, origin: nat, s: nat)
    requires Runs(es) && OneBroker(es, t, origin) && VersionAt(After(es).log, s, t)
    ensures After(es).log[s].sender == origin
  {
    if s < |After(es[..|es| - 1]).log| {
      VersionsFrom(es[..|es| - 1], t, origin, s);
    }
  }

  lemma NothingForeign(n: Node, b: nat, log: seq<Msg>, published: set<nat>, t: Topic, origin: nat)
    requires NodeOk(n, b, log, published) && forall s: nat :: VersionAt(log, s, t) ==> log[s].sender == origin
    ensures b != origin ==> !InFlight(n, t)
    ensures b == origin ==> !ForeignWaits(n, b, t)
  {
    if b == origin {
      forall i | 0 <= i < |n.inbox| ensures !ForeignVersion(n.inbox[i], b, t) { assert Logged(n.inbox[i], log); }
    } else {
      forall i | 0 <= i < |n.queue| ensures !Version(n.queue[i], t) { assert Logged(n.queue[i], log); }
      forall w | w in n.hands ensures !Version(n.hands[w], t) { assert Logged(n.hands[w], log); }
      assert n.unsaved.Some? ==> Logged(n.unsaved.value, log);
    }
  }

  /** At one broker it is enough that no version is applied while another waits for a queue slot. */
  lemma {:induction false} OneBrokerTakesTurns(es: seq<Event>, t: Topic, origin: nat)
    requires Runs(es) && OneBroker(es, t, origin)
    ensures InTurn(es, t)
  {
    if es != [] {
      var init, last := es[..|es| - 1], es[|es| - 1];
      OneBrokerTakesTurns(init, t, origin);
      if Writes(last, t) {
        RunKeepsInv(init);
        var c := After(init);
        forall s: nat | VersionAt(c.log, s, t) ensures c.log[s].sender == origin { VersionsFrom(init, t, origin, s); }
        forall a | a in c.nodes ensures a != origin ==> !InFlight(c.nodes[a], t) {
          assert NodeOk(c.nodes[a], a, c.log, c.published);
          NothingForeign(c.nodes[a], a, c.log, c.published, t, origin);
        }
        assert NodeOk(c.nodes[origin], origin, c.log, c.published);
        NothingForeign(c.nodes[origin], origin, c.log, c.published, t, origin);
      }
    }
  }

  ghost predicate OneWriter(es: seq<Event>, t: Topic, origin: nat, writer: nat) {
    forall e <- es :: Writes(e, t) ==> e.node == origin && e.writer == writer
  }

  lemma {:induction false} VersionsByWriter(es: seq<Event>, t: Topic, origin: nat, writer: nat, s: nat)
    requires Runs(es) && OneWriter(es, t, origin, writer) && VersionAt(After(es).log, s, t)
    ensures After(es).log[s].writer == writer
  {
    if s < |After(es[..|es| - 1]).log| {
      VersionsByWriter(es[..|es| - 1], t, origin, writer, s);
    }
  }

  /** The retained publishes of a single connection take turns, since it waits for its queue slot. */
  lemma {:induction false} OneWriterTakesTurns(es: seq<Event>, t: Topic, origin: nat, writer: nat)
    requires Runs(es) && OneWriter(es, t, origin, writer)
    ensures OneBroker(es, t, origin) && InTurn(es, t)
  {
    if es != [] {
      var init, last := es[..|es| - 1], es[|es| - 1];
      OneWriterTakesTurns(init, t, origin, writer);
      if Writes(last, t) {
        RunKeepsInv(init);
        var c := After(init);
        assert NodeOk(c.nodes[origin], origin, c.log, c.published);
        forall w | w in c.nodes[origin].hands ensures !Version(c.nodes[origin].hands[w], t) {
          var m := c.nodes[origin].hands[w];
          if Version(m, t) { VersionsByWriter(init, t, origin, writer, m.serial); }
        }
      }
    }
    OneBrokerTakesTurns(es, t, origin);
  }

  // The theorems.

  /** Versions are ordered; holding none comes before all of them. */
  predicate AtMost(a: Option<nat>, b: Option<nat>) {
    a.None? || (b.Some? && a.value <= b.value)
  }

  /** What a broker retains changes only when it loads, applies, receives or crashes. */
  lemma OthersKeepVersion(c: Cluster, e: Event, b: nat)
    requires Enabled(c, e) && b in c.nodes
    requires e.node != b || !(e.Load? || e.Apply? || e.Receive? || e.Crash?)
    ensures b in Step(c, e).nodes && Step(c, e).nodes[b].retained == c.nodes[b].retained
  {
  }

  lemma ReceiveForward(n: Node, b: nat, t: Topic)
    requires n.inbox != [] && InboxOrder(n, b, t)
    ensures AtMost(Held(n.retained, t), Held(ReceiveNode(n, b).retained, t))
  {
  }

  lemma LoadForward(n: Node, b: nat, store: map<Topic, Msg>, readable: bool, log: seq<Msg>, t: Topic)
    requires n.phase.Loading? && n.phase.todo != [] && LoadOrder(n, b, log, t)
    ensures AtMost(Held(n.retained, t), Held(LoadNode(n, store, readable).retained, t))
  {
  }

  lemma ApplyForward(retained: map<Topic, Msg>, log: seq<Msg>, m: Msg, t: Topic)
    requires RetainedOk(retained, log) && m.serial == |log|
    ensures AtMost(Held(retained, t), Held(Keep(retained, m), t))
  {
    assert t in retained ==> Logged(retained[t], log);
  }

  lemma StepMovesForward(c: Cluster, e: Event, t: Topic, b: nat)
    requires Enabled(c, e) && b in c.nodes && b in Step(c, e).nodes && !Step(c, e).nodes[b].phase.Down?
    requires RetainedOk(c.nodes[b].retained, c.log) && NodeOrdered(c.nodes[b], b, c.log, c.published, t)
    ensures AtMost(Held(c.nodes[b].retained, t), Held(Step(c, e).nodes[b].retained, t))
  {
    if e.Receive? && e.node == b {
      ReceiveForward(c.nodes[b], b, t);
    } else if e.Load? && e.node == b {
      LoadForward(c.nodes[b], b, c.store, e.readable, c.log, t);
    } else if e.Apply? && e.node == b {
      ApplyForward(c.nodes[b].retained, c.log, NewMsg(c, e), t);
    } else if e.node != b || !e.Crash? {
      OthersKeepVersion(c, e, b);
    }
  }

  lemma DownStaysDown(c: Cluster, e: Event, b: nat)
    requires Enabled(c, e) && b in c.nodes && c.nodes[b].phase.Down?
    ensures b in Step(c, e).nodes && Step(c, e).nodes[b].phase.Down?
  {
  }

  /** Brokers are never forgotten. */
  lemma {:induction false} NodesStay(es: seq<Event>, k: nat, b: nat)
    requires Runs(es) && k <= |es| && Runs(es[..k]) && b in After(es[..k]).nodes
    ensures b in After(es).nodes
  {
    if k == |es| {
      assert es[..k] == es;
    } else {
      assert es[..|es| - 1][..k] == es[..k];
      NodesStay(es[..|es| - 1], k, b);
    }
  }

  /** Monotonicity: over any stretch of any run, no live broker goes back to an older version. */
  lemma {:induction false} NeverBackwards(es: seq<Event>, t: Topic, k: nat, b: nat)
    requires Runs(es) && InTurn(es, t) && k <= |es| && Runs(es[..k])
    requires b in After(es[..k]).nodes && b in After(es).nodes && !After(es).nodes[b].phase.Down?
    ensures AtMost(Held(After(es[..k]).nodes[b].retained, t), Held(After(es).nodes[b].retained, t))
  {
    if k == |es| {
      assert es[..k] == es;
    } else {
      var init := es[..|es| - 1];
      assert init[..k] == es[..k];
      NodesStay(init, k, b);
      if After(init).nodes[b].phase.Down? {
        DownStaysDown(After(init), es[|es| - 1], b);
      }
      NeverBackwards(init, t, k, b);
      assert AtMost(Held(After(init).nodes[b].retained, t), Held(After(es).nodes[b].retained, t)) by {
        RunKeepsOrdered(init, t);
        var c := After(init);
        assert NodeOk(c.nodes[b], b, c.log, c.published);
        StepMovesForward(c, es[|es| - 1], t, b);
      }
    }
  }

  /** The bus never brings a broker another's version that it already holds or has superseded, loaded ones included. */
  lemma BusBringsNewer(es: seq<Event>, t: Topic, b: nat, i: nat)
    requires Runs(es) && InTurn(es, t) && b in After(es).nodes
    requires i < |After(es).nodes[b].inbox| && ForeignVersion(After(es).nodes[b].inbox[i], b, t)
    ensures var n := After(es).nodes[b];
            !AtMost(Some(n.inbox[i].serial), Held(n.retained, t))
  {
    RunKeepsOrdered(es, t);
    var c := After(es);
    assert NodeOrdered(c.nodes[b], b, c.log, c.published, t);
  }

  /** The last version written, by serial number. */
  ghost predicate Latest(c: Cluster, s: nat, t: Topic) {
    VersionAt(c.log, s, t) && forall r: nat :: VersionAt(c.log, r, t) ==> r <= s
  }

  ghost predicate HoldsLatest(retained: map<Topic, Msg>, c: Cluster, s: nat, t: Topic)
    requires s < |c.log|
  {
    t in retained && retained[t] == c.log[s]
  }

  lemma HeldVersion(retained: map<Topic, Msg>, c: Cluster, s: nat, t: Topic)
    requires RetainedOk(retained, c.log) && GlobalOk(c) && Latest(c, s, t) && t in retained
    ensures retained[t].serial <= s && (retained[t].serial == s <==> HoldsLatest(retained, c, s, t))
  {
    assert Logged(retained[t], c.log);
    assert VersionAt(c.log, retained[t].serial, t);
  }

  /** No broker is ever ahead of the one that wrote the latest version, while that one is up. */
  lemma NeverAhead(es: seq<Event>, t: Topic, s: nat, b: nat)
    requires Runs(es) && InTurn(es, t) && Latest(After(es), s, t) && b in After(es).nodes
    requires Up(After(es), After(es).log[s].sender)
    ensures var c := After(es);
            AtMost(Held(c.nodes[b].retained, t), Held(c.nodes[c.log[s].sender].retained, t))
  {
    RunKeepsOrdered(es, t);
    var c := After(es);
    var o := c.log[s].sender;
    assert NodeOk(c.nodes[b], b, c.log, c.published) && NodeOrdered(c.nodes[o], o, c.log, c.published, t);
    if t in c.nodes[b].retained { HeldVersion(c.nodes[b].retained, c, s, t); }
  }

  lemma StoreConverges(c: Cluster, s: nat, t: Topic)
    requires GlobalOk(c) && StoreOk(c, t) && Latest(c, s, t)
    ensures HoldsLatest(c.store, c, s, t) <==> s in c.saved
  {
    if t in c.store { HeldVersion(c.store, c, s, t); }
  }

  lemma WriterConverges(n: Node, b: nat, c: Cluster, s: nat, t: Topic)
    requires GlobalOk(c) && Latest(c, s, t) && c.log[s].sender == b && n.phase.Listening?
    requires RetainedOk(n.retained, c.log) && Kept(n, b, c.log, c.published, t)
    ensures HoldsLatest(n.retained, c, s, t)
  {
    HeldVersion(n.retained, c, s, t);
  }

  lemma ReaderConverges(n: Node, b: nat, c: Cluster, s: nat, t: Topic)
    requires GlobalOk(c) && Latest(c, s, t) && c.log[s].sender != b && !n.phase.Down? && !ForeignWaits(n, b, t)
    requires NodeOk(n, b, c.log, c.published) && Kept(n, b, c.log, c.published, t)
    ensures HoldsLatest(n.retained, c, s, t) <==> s in n.heard
  {
    if t in n.retained { HeldVersion(n.retained, c, s, t); }
    if s in n.heard {
      assert Taken(n, s, t);
      forall i | 0 <= i < |n.inbox| ensures n.inbox[i].serial != s {
        assert Logged(n.inbox[i], c.log) && !ForeignVersion(n.inbox[i], b, t);
      }
      assert !Waits(n, s);
    }
  }

  /**
   Who holds the latest version `s`: the broker that wrote it, always; the store exactly when its SET
   succeeded; any other live broker without other brokers' versions left in its inbox exactly when `s` was
   delivered to it over the bus or loaded by it.
   */
  lemma {:induction false} WhoHoldsLatest(es: seq<Event>, t: Topic, s: nat, b: nat)
    requires Runs(es) && InTurn(es, t) && Latest(After(es), s, t)
    requires b in After(es).nodes && !After(es).nodes[b].phase.Down?
    ensures var c := After(es);
            && (HoldsLatest(c.store, c, s, t) <==> s in c.saved)
            && (b == c.log[s].sender ==> HoldsLatest(c.nodes[b].retained, c, s, t))
            && (b != c.log[s].sender && !ForeignWaits(c.nodes[b], b, t) ==>
                  (HoldsLatest(c.nodes[b].retained, c, s, t) <==> s in c.nodes[b].heard))
  {
    RunKeepsOrdered(es, t);
    var c := After(es);
    assert NodeOk(c.nodes[b], b, c.log, c.published) && NodeOrdered(c.nodes[b], b, c.log, c.published, t);
    StoreConverges(c, s, t);
    if b == c.log[s].sender {
      WriterConverges(c.nodes[b], b, c, s, t);
    } else if !ForeignWaits(c.nodes[b], b, t) {
      ReaderConverges(c.nodes[b], b, c, s, t);
    }
  }

  /** Convergence: once the latest version was saved, heard everywhere and taken, all hold its topic and payload. */
  lemma {:induction false} ClusterConverges(es: seq<Event>, t: Topic, s: nat)
    requires Runs(es) && InTurn(es, t) && Latest(After(es), s, t) && s in After(es).saved
    requires var c := After(es);
             forall b <- c.nodes :: b != c.log[s].sender && !c.nodes[b].phase.Down? ==>
               s in c.nodes[b].heard && !ForeignWaits(c.nodes[b], b, t)
    ensures var c := After(es);
            && HoldsLatest(c.store, c, s, t)
            && forall b <- c.nodes :: !c.nodes[b].phase.Down? ==> HoldsLatest(c.nodes[b].retained, c, s, t)
  {
    var c := After(es);
    forall b | b in c.nodes && !c.nodes[b].phase.Down? ensures HoldsLatest(c.nodes[b].retained, c, s, t) {
      WhoHoldsLatest(es, t, s, b);
    }
    assert HoldsLatest(c.store, c, s, t) by {
      RunKeepsOrdered(es, t);
      StoreConverges(c, s, t);
    }
  }
}
