/**
 One broker's side and the cluster's view of it fit together: what the registry retains and what Redis stores
 change as the cluster's steps say, topic by topic and payload by payload.
 */
module Refinement {
  import opened Prelude
  import opened Packets
  import opened Topics
  import opened RedisSync
  import Cluster

  /** The payload every topic retains, in a registry and in the cluster's view of its broker. */
  ghost function Payloads(retained: map<Topic, PublishPacket>): map<Topic, Payload> {
    map t | t in retained :: retained[t].payload
  }

  ghost function ClusterPayloads(retained: map<Topic, Cluster.Msg>): map<Topic, Payload> {
    map t | t in retained :: retained[t].payload
  }

  ghost predicate Agree(r: Registry, retained: map<Topic, Cluster.Msg>) {
    Payloads(RetainedMap(r)) == ClusterPayloads(retained)
  }

  lemma PutPayloads(a: map<Topic, PublishPacket>, p: PublishPacket, b: map<Topic, Cluster.Msg>, m: Cluster.Msg)
    requires Payloads(a) == ClusterPayloads(b) && p.topic == m.topic && p.payload == m.payload
    ensures Payloads(a[p.topic := p]) == ClusterPayloads(b[m.topic := m])
  {
    assert Payloads(a[p.topic := p]) == Payloads(a)[p.topic := p.payload];
    assert ClusterPayloads(b[m.topic := m]) == ClusterPayloads(b)[m.topic := m.payload];
  }

  /** Publishing a packet to the registry is what the cluster's step does to what the broker retains. */
  lemma {:induction false} PublishIsKeep(r: Registry, p: PublishPacket, retained: map<Topic, Cluster.Msg>,
                                         m: Cluster.Msg)
    requires ValidRegistry(r) && Agree(r, retained)
    requires p.topic == m.topic && p.payload == m.payload && p.retain == m.retain
    ensures Agree(Published(r, p), Cluster.Keep(retained, m))
  {
    PublishedRetainedMap(r, p);
    PutPayloads(RetainedMap(r), p, retained, m);
  }

  // Redis messages and stores.

  /** The same message; `id` gives the brokers' sender ids. */
  ghost predicate Same(m: RedisMessage, c: Cluster.Msg, id: nat -> string) {
    m.topic == c.topic && m.payload == c.payload && m.retain == c.retain && m.senderId == id(c.sender)
  }

  /** The cluster's message is packet `p` of a client of the broker with this sender id. */
  ghost predicate IsMessageOf(c: Cluster.Msg, p: PublishPacket, senderId: string, id: nat -> string) {
    c.topic == p.topic && c.payload == p.payload && c.retain == p.retain && id(c.sender) == senderId
  }

  /** The store holds, under the keys of the cluster's topics, the same payloads. */
  ghost predicate StoresAgree(store: map<string, RedisMessage>, view: map<Topic, Cluster.Msg>) {
    && StoreOk(store)
    && (forall t :: Key(t) in store <==> t in view)
    && (forall t <- view :: Key(t) in store && store[Key(t)].payload == view[t].payload)
  }

  lemma StoreSameAt(store: map<string, RedisMessage>, view: map<Topic, Cluster.Msg>, m: RedisMessage, c: Cluster.Msg,
                    t: Topic)
    requires m.topic == c.topic && m.payload == c.payload && (Key(t) in store <==> t in view)
    requires t in view ==> store[Key(t)].payload == view[t].payload
    ensures var store', view' := Stored(store, m), view[c.topic := c];
            (Key(t) in store' <==> t in view') && (t in view' ==> store'[Key(t)].payload == view'[t].payload)
  {
    if Key(t) == Key(m.topic) { KeyInjective(t, m.topic); }
  }

  lemma StoreSame(store: map<string, RedisMessage>, view: map<Topic, Cluster.Msg>, m: RedisMessage, c: Cluster.Msg)
    requires StoresAgree(store, view) && m.topic == c.topic && m.payload == c.payload
    ensures StoresAgree(Stored(store, m), view[c.topic := c])
  {
    var store', view' := Stored(store, m), view[c.topic := c];
    assert StoreOk(store');
    forall t
      ensures Key(t) in store' <==> t in view'
      ensures t in view' ==> store'[Key(t)].payload == view'[t].payload
    {
      StoreSameAt(store, view, m, c, t);
    }
  }

  /** The SET of a client's publish is the cluster's saving step, whether or not it works. */
  lemma SetIsSave(client: RedisClient, p: PublishPacket, store: map<string, RedisMessage>, c: Cluster.Cluster, b: nat,
                  works: bool, id: nat -> string)
    requires Cluster.Enabled(c, Cluster.Save(b, works)) && StoresAgree(store, c.store)
    requires IsMessageOf(c.nodes[b].unsaved.value, p, client.senderId, id)
    ensures StoresAgree(if works then Stored(store, client.Outgoing(p)) else store,
                        Cluster.Step(c, Cluster.Save(b, works)).store)
  {
    StoreSame(store, c.store, client.Outgoing(p), c.nodes[b].unsaved.value);
  }

  /** The cluster after the PUBLISH of the first message in `b`'s queue and, if it is retained, its SET. */
  ghost function Synced(c: Cluster.Cluster, b: nat, delivered: set<nat>, works: bool): Cluster.Cluster
    requires Cluster.Enabled(c, Cluster.Publish(b, delivered))
  {
    var c1 := Cluster.Step(c, Cluster.Publish(b, delivered));
    if c.nodes[b].queue[0].retain then Cluster.Step(c1, Cluster.Save(b, works)) else c1
  }

  /** The message in the inbox of a node that it reached. */
  ghost predicate GotLast(before: Cluster.Node, after: Cluster.Node, m: RedisMessage, id: nat -> string) {
    && |after.inbox| == |before.inbox| + 1 && after.inbox[..|before.inbox|] == before.inbox
    && Same(m, after.inbox[|before.inbox|], id)
  }

  /**
   Publishing a message to Redis is one or two steps of the cluster: the stores go on agreeing whether or not the
   SET works, exactly the brokers that the message reaches have it last in their inbox, nobody else changes, and the
   publisher is ready for its next message.
   */
  lemma PublishIsSteps(client: RedisClient, p: PublishPacket, store: map<string, RedisMessage>, c: Cluster.Cluster,
                       b: nat, delivered: set<nat>, works: bool, id: nat -> string, y: nat)
    requires Cluster.Enabled(c, Cluster.Publish(b, delivered)) && StoresAgree(store, c.store)
    requires IsMessageOf(c.nodes[b].queue[0], p, client.senderId, id) && y in c.nodes
    ensures var c' := Synced(c, b, delivered, works);
            && StoresAgree(if p.retain && works then Stored(store, client.Outgoing(p)) else store, c'.store)
            && b in c'.nodes && c'.nodes[b].unsaved.None? && c'.nodes[b].queue == c.nodes[b].queue[1..]
            && y in c'.nodes
            && (if y in delivered && Cluster.Up(c, y) then GotLast(c.nodes[y], c'.nodes[y], client.Outgoing(p), id)
                else c'.nodes[y].inbox == c.nodes[y].inbox && (y != b ==> c'.nodes[y] == c.nodes[y]))
  {
    if p.retain {
      SetIsSave(client, p, store, Cluster.Step(c, Cluster.Publish(b, delivered)), b, works, id);
    }
  }

  /** Handling a message from the bus is the cluster's receiving step, the drop of an echo included. */
  lemma HandleIsReceive(r: Registry, m: RedisMessage, n: Cluster.Node, b: nat, id: nat -> string)
    requires ValidRegistry(r) && Agree(r, n.retained) && n.inbox != [] && Same(m, n.inbox[0], id)
    requires forall a :: id(a) == id(b) ==> a == b
    ensures Agree(AfterMessage(r, m, id(b)), Cluster.ReceiveNode(n, b).retained)
  {
    if n.inbox[0].sender != b {
      PublishIsKeep(r, Built(m.topic, m.payload, m.retain), n.retained, n.inbox[0]);
    }
  }

  // The load.

  lemma LoadPuts(r: Registry, m: RedisMessage)
    requires m.topic !in r.channels
    ensures RetainedMap(LoadOne(r, m)) == RetainedMap(r)[m.topic := Built(m.topic, m.payload, false)]
  {
    forall t ensures t in RetainedMap(LoadOne(r, m)) <==> t == m.topic || t in RetainedMap(r) {
      assert t in RetainedMap(LoadOne(r, m)) <==> Retained(LoadOne(r, m), t).Some?;
      assert t in RetainedMap(r) <==> Retained(r, t).Some?;
    }
  }

  /** The GET of topic `t` from a store of which the cluster has the view `view`. */
  ghost predicate Views(g: Get, t: Topic, view: map<Topic, Cluster.Msg>) {
    g.key == Key(t) && StoresAgree(g.store, view) && forall u <- view :: view[u].topic == u
  }

  /** Loading one key is the cluster's loading step. */
  lemma {:induction false} LoadIsStep(r: Registry, g: Get, n: Cluster.Node, view: map<Topic, Cluster.Msg>)
    requires n.phase.Loading? && n.phase.todo != [] && n.phase.todo[0] !in r.channels
    requires Views(g, n.phase.todo[0], view) && Agree(r, n.retained)
    ensures Agree(LoadReply(r, Reply(g)), Cluster.LoadNode(n, view, g.readable).retained)
    ensures LoadReply(r, Reply(g)).channels.Keys <= r.channels.Keys + {n.phase.todo[0]}
  {
    var t := n.phase.todo[0];
    if g.readable && t in view {
      var m := g.store[g.key];
      KeyInjective(t, m.topic);
      LoadPuts(r, m);
      PutPayloads(RetainedMap(r), Built(m.topic, m.payload, false), n.retained, view[t]);
    }
  }

  /** The loading steps of a node, one per view of the store. */
  ghost function LoadSteps(n: Cluster.Node, gets: seq<Get>, views: seq<map<Topic, Cluster.Msg>>): (n': Cluster.Node)
    requires n.phase.Loading? && |gets| == |views| <= |n.phase.todo|
    ensures n'.phase == Cluster.Loading(n.phase.todo[|gets|..])
  {
    if gets == [] then n
    else
      var k := |gets| - 1;
      Cluster.LoadNode(LoadSteps(n, gets[..k], views[..k]), views[k], gets[k].readable)
  }

  lemma RepliesSnoc(gets: seq<Get>)
    requires gets != []
    ensures Loaded(Replies(gets)) == LoadReply(Loaded(Replies(gets[..|gets| - 1])), Reply(gets[|gets| - 1]))
  {
    assert Replies(gets)[..|gets| - 1] == Replies(gets[..|gets| - 1]);
  }

  /** The first keys, as a set. */
  ghost function Firsts(keys: seq<Topic>, k: nat): set<Topic>
    requires k <= |keys|
  {
    set i | 0 <= i < k :: keys[i]
  }

  /**
   The whole load is a sequence of loading steps of a joining broker: whatever is saved between the GETs and
   whichever replies can be read, the loaded registry retains what the cluster says the broker retains. That the
   keys are distinct is all that is needed.
   */
  lemma {:induction false} LoadIsSteps(keys: seq<Topic>, n: Cluster.Node, gets: seq<Get>,
                                       views: seq<map<Topic, Cluster.Msg>>)
    requires n.phase == Cluster.Loading(keys) && n.retained == map[] && Cluster.Distinct(keys)
    requires |gets| == |views| <= |keys| && forall i :: 0 <= i < |gets| ==> Views(gets[i], keys[i], views[i])
    ensures Agree(Loaded(Replies(gets)), LoadSteps(n, gets, views).retained)
    ensures Loaded(Replies(gets)).channels.Keys <= Firsts(keys, |gets|)
  {
    if gets == [] {
      assert Replies(gets) == [];
      assert RetainedMap(Loaded([])) == map[];
    } else {
      var k := |gets| - 1;
      LoadIsSteps(keys, n, gets[..k], views[..k]);
      var n', r := LoadSteps(n, gets[..k], views[..k]), Loaded(Replies(gets[..k]));
      assert n'.phase.todo[0] == keys[k];
      assert keys[k] !in Firsts(keys, k);
      LoadIsStep(r, gets[k], n', views[k]);
      RepliesSnoc(gets);
      assert Firsts(keys, k) + {keys[k]} == Firsts(keys, k + 1);
    }
  }
}
