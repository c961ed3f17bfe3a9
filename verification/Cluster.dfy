/**
 A cluster of brokers that synchronise through Redis: a pub/sub channel that may lose any
 message for any broker, and a store of retained messages. Every Redis command is one step.

 A broker applies a client's publish to its own registry first; the session then holds the
 message until it gets a slot in the broker's queue; the Redis task takes one message at a
 time from the queue, publishes it and then saves it, or takes one from its inbox.
 */
module Cluster {
  import opened Prelude
  import opened Packets

  /**
   A message on its way through the cluster. `serial` is its place in the order of first
   applications and `writer` the client connection it came from; no step looks at either.
   */
  datatype Msg = Msg(serial: nat, sender: nat, writer: nat, topic: Topic, payload: Payload, retain: bool)

  /** A loading broker still has the keys `todo` to read; it listens only after that. */
  datatype Phase = Loading(todo: seq<Topic>) | Listening | Down

  /**
   `hands` are messages applied but not yet queued, by connection; `unsaved` is the message the Redis
   task has published and not yet saved; `applied` lists what the registry applied and `heard` what
   was read from the store or put into the inbox (both only history).
   */
  datatype Node = Node(
    phase: Phase,
    hands: map<nat, Msg>,
    queue: seq<Msg>,
    unsaved: Option<Msg>,
    inbox: seq<Msg>,
    retained: map<Topic, Msg>,
    applied: seq<nat>,
    heard: set<nat>)

  /** `log` lists all client publishes in order; `published` and `saved` are history. */
  datatype Cluster = Cluster(
    nodes: map<nat, Node>,
    store: map<Topic, Msg>,
    log: seq<Msg>,
    published: set<nat>,
    saved: set<nat>)

  datatype Event =
    | Join(node: nat, keys: seq<Topic>)
    | Load(node: nat, readable: bool)
    | Listen(node: nat)
    | Apply(node: nat, writer: nat, topic: Topic, payload: Payload, retain: bool)
    | Enqueue(node: nat, writer: nat)
    | Publish(node: nat, delivered: set<nat>)
    | Save(node: nat, success: bool)
    | Receive(node: nat)
    | Crash(node: nat)

  const QUEUE_CAPACITY: nat := 200

  const EMPTY := Cluster(map[], map[], [], {}, {})

  ghost predicate Distinct(keys: seq<Topic>) {
    forall i, j :: 0 <= i < j < |keys| ==> keys[i] != keys[j]
  }

  predicate Up(c: Cluster, b: nat) {
    b in c.nodes && c.nodes[b].phase.Listening?
  }

  /** What a registry retains after one application. */
  function Keep(retained: map<Topic, Msg>, m: Msg): map<Topic, Msg> {
    if m.retain then retained[m.topic := m] else retained
  }

  // When a step can happen.

  ghost predicate Enabled(c: Cluster, e: Event) {
    match e
    case Join(b, keys) => b !in c.nodes && Distinct(keys) && forall k <- keys :: k in c.store
    case Load(b, _) => b in c.nodes && c.nodes[b].phase.Loading? && c.nodes[b].phase.todo != []
    case Listen(b) => b in c.nodes && c.nodes[b].phase == Loading([])
    case Apply(b, w, _, _, _) => Up(c, b) && w !in c.nodes[b].hands
    case Enqueue(b, w) => Up(c, b) && w in c.nodes[b].hands && |c.nodes[b].queue| < QUEUE_CAPACITY
    case Publish(b, _) => Up(c, b) && c.nodes[b].unsaved.None? && c.nodes[b].queue != []
    case Save(b, _) => Up(c, b) && c.nodes[b].unsaved.Some?
    case Receive(b) => Up(c, b) && c.nodes[b].unsaved.None? && c.nodes[b].inbox != []
    case Crash(b) => b in c.nodes
  }

  // What a step does to its own node.

  function LoadNode(n: Node, store: map<Topic, Msg>, readable: bool): Node
    requires n.phase.Loading? && n.phase.todo != []
  {
    var key, rest := n.phase.todo[0], n.(phase := Loading(n.phase.todo[1..]));
    if readable && key in store then
      rest.(retained := rest.retained[key := store[key]], heard := rest.heard + {store[key].serial})
    else rest
  }

  function ApplyNode(n: Node, m: Msg): Node {
    n.(hands := n.hands[m.writer := m], retained := Keep(n.retained, m), applied := n.applied + [m.serial])
  }

  function EnqueueNode(n: Node, w: nat): Node
    requires w in n.hands
  {
    n.(queue := n.queue + [n.hands[w]], hands := n.hands - {w})
  }

  /** The publisher's side of a PUBLISH. */
  function SentNode(n: Node): Node
    requires n.queue != []
  {
    n.(queue := n.queue[1..], unsaved := if n.queue[0].retain then Some(n.queue[0]) else None)
  }

  /** A subscriber's side of a PUBLISH that reaches it. */
  function ReachedNode(n: Node, m: Msg): Node {
    n.(inbox := n.inbox + [m], heard := n.heard + {m.serial})
  }

  /** A broker drops its own messages and applies all others. */
  function ReceiveNode(n: Node, b: nat): Node
    requires n.inbox != []
  {
    var m, rest := n.inbox[0], n.(inbox := n.inbox[1..]);
    if m.sender == b then rest
    else rest.(retained := Keep(rest.retained, m), applied := rest.applied + [m.serial])
  }

  function CrashNode(n: Node): Node {
    Node(Down, map[], [], None, [], map[], n.applied, n.heard)
  }

  /** A PUBLISH of `m`, seen by one node: the publisher itself or not, reached by the message or not. */
  function PublishNode(n: Node, m: Msg, own: bool, reached: bool): Node
    requires own ==> n.queue != []
  {
    var sent := if own then SentNode(n) else n;
    if reached && n.phase.Listening? then ReachedNode(sent, m) else sent
  }

  function PublishNodes(c: Cluster, b: nat, delivered: set<nat>): map<nat, Node>
    requires b in c.nodes && c.nodes[b].queue != []
  {
    map y | y in c.nodes :: PublishNode(c.nodes[y], c.nodes[b].queue[0], y == b, y in delivered)
  }

  function NewMsg(c: Cluster, e: Event): Msg
    requires e.Apply?
  {
    Msg(|c.log|, e.node, e.writer, e.topic, e.payload, e.retain)
  }

  ghost function Step(c: Cluster, e: Event): Cluster
    requires Enabled(c, e)
  {
    match e
    case Join(b, keys) => c.(nodes := c.nodes[b := Node(Loading(keys), map[], [], None, [], map[], [], {})])
    case Load(b, readable) => c.(nodes := c.nodes[b := LoadNode(c.nodes[b], c.store, readable)])
    case Listen(b) => c.(nodes := c.nodes[b := c.nodes[b].(phase := Listening)])
    case Apply(b, _, _, _, _) =>
      c.(nodes := c.nodes[b := ApplyNode(c.nodes[b], NewMsg(c, e))], log := c.log + [NewMsg(c, e)])
    case Enqueue(b, w) => c.(nodes := c.nodes[b := EnqueueNode(c.nodes[b], w)])
    case Publish(b, delivered) =>
      c.(nodes := PublishNodes(c, b, delivered), published := c.published + {c.nodes[b].queue[0].serial})
    case Save(b, success) =>
      var m := c.nodes[b].unsaved.value;
      var d := c.(nodes := c.nodes[b := c.nodes[b].(unsaved := None)]);
      if success then d.(store := d.store[m.topic := m], saved := d.saved + {m.serial}) else d
    case Receive(b) => c.(nodes := c.nodes[b := ReceiveNode(c.nodes[b], b)])
    case Crash(b) => c.(nodes := c.nodes[b := CrashNode(c.nodes[b])])
  }

  /** A run of the cluster from nothing: every step is enabled when it happens. */
  ghost predicate Runs(es: seq<Event>)
    decreases |es|, 0
  {
    es == [] || (Runs(es[..|es| - 1]) && Enabled(After(es[..|es| - 1]), es[|es| - 1]))
  }

  ghost function After(es: seq<Event>): Cluster
    requires Runs(es)
    decreases |es|, 1
  {
    if es == [] then EMPTY else Step(After(es[..|es| - 1]), es[|es| - 1])
  }
}
