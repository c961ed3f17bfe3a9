/**
 One broker: every interleaving of its sessions and of the Redis task over the shared
 registry. A step is one critical section (or one receive); what a session does between
 two steps does not touch shared state.

 Beside the state, a world records the history that the theorems speak about: all
 publishes per topic, and for each live subscription what it was told and has yielded.
 */
module Broker {
  import opened Prelude
  import opened Packets
  import opened Broadcast
  import opened Topics

  /**
   The past of one subscription: the length of the topic's log when it was made, the
   retained message it was greeted with, what its receiver yielded (with log indices),
   and the largest backlog at any of its receives.
   */
  datatype Subscription = Subscription(
    since: nat,
    greeting: Option<PublishPacket>,
    heard: seq<nat>,
    got: seq<PublishPacket>,
    peak: nat)

  datatype Held = Held(receiver: Receiver, past: Subscription)

  datatype World = World(
    reg: Registry,
    sessions: map<nat, map<Topic, Held>>,
    log: map<Topic, seq<PublishPacket>>)

  /**
   `Publish` comes from a session, or from the bus if it has no publisher; `Drop` is an unsubscribe or one
   receiver of an ending session; `Close` removes a session whose receivers are gone.
   */
  datatype Event =
    | Open(session: nat)
    | Close(session: nat)
    | Subscribe(session: nat, topic: Topic)
    | Drop(session: nat, topic: Topic)
    | Publish(publisher: Option<nat>, packet: PublishPacket)
    | Receive(session: nat, topic: Topic)

  function LogOf(w: World, t: Topic): seq<PublishPacket> {
    if t in w.log then w.log[t] else []
  }

  ghost predicate Holds(w: World, s: nat, t: Topic) {
    s in w.sessions && t in w.sessions[s]
  }

  function Max(a: nat, b: nat): nat {
    if a < b then b else a
  }

  function StepSubscribe(w: World, s: nat, t: Topic): World
    requires s in w.sessions
  {
    var after := Subscribed(w.reg, t);
    var reg := if t in w.sessions[s] then Dropped(after, w.sessions[s][t].receiver) else after;
    var past := Subscription(|LogOf(w, t)|, Retained(reg, t), [], [], 0);
    w.(reg := reg, sessions := w.sessions[s := w.sessions[s][t := Held(NewReceiver(w.reg, t), past)]])
  }

  function StepDrop(w: World, s: nat, t: Topic): World
    requires s in w.sessions && t in w.sessions[s]
  {
    w.(reg := Dropped(w.reg, w.sessions[s][t].receiver), sessions := w.sessions[s := w.sessions[s] - {t}])
  }

  function StepPublish(w: World, p: PublishPacket): World {
    w.(reg := Published(w.reg, p), log := w.log[p.topic := LogOf(w, p.topic) + [p]])
  }

  /** The receiver's part of a receive, on its wire. */
  function After(h: Held, wire: Wire<PublishPacket>, logged: nat): Held {
    var (r, next) := Recv(wire, h.receiver.next);
    var n := Backlog(wire, h.receiver.next);
    var past := h.past.(peak := Max(h.past.peak, n));
    Held(h.receiver.(next := next),
         match r
         case Pending => h.past
         case Lagged(_) => past
         case Message(m) => past.(heard := past.heard + [if n <= logged then logged - n else 0], got := past.got + [m]))
  }

  function StepReceive(w: World, s: nat, t: Topic): World
    requires s in w.sessions && t in w.sessions[s]
  {
    var h := w.sessions[s][t];
    if h.receiver.wire < |w.reg.wires| then
      w.(sessions := w.sessions[s := w.sessions[s][t := After(h, w.reg.wires[h.receiver.wire], |LogOf(w, t)|)]])
    else w
  }

  function Step(w: World, e: Event): World {
    match e
    case Open(s) => if s in w.sessions then w else w.(sessions := w.sessions[s := map[]])
    case Close(s) => if s in w.sessions && w.sessions[s] == map[] then w.(sessions := w.sessions - {s}) else w
    case Subscribe(s, t) => if s in w.sessions then StepSubscribe(w, s, t) else w
    case Drop(s, t) => if s in w.sessions && t in w.sessions[s] then StepDrop(w, s, t) else w
    case Publish(_, p) => StepPublish(w, p)
    case Receive(s, t) => if s in w.sessions && t in w.sessions[s] then StepReceive(w, s, t) else w
  }

  /** The world after a run that starts from a freshly loaded registry. */
  function Run(boot: Registry, es: seq<Event>): World {
    if es == [] then World(boot, map[], map[]) else Step(Run(boot, es[..|es| - 1]), es[|es| - 1])
  }

  /** A registry as the start-up load leaves it. */
  ghost predicate Booted(boot: Registry) {
    ValidRegistry(boot) && forall i :: 0 <= i < |boot.wires| ==> boot.wires[i].receivers == 0
  }

  // Reference definitions, on the events alone.

  function PublishesTo(es: seq<Event>, t: Topic): seq<PublishPacket> {
    if es == [] then []
    else
      var before, e := PublishesTo(es[..|es| - 1], t), es[|es| - 1];
      if e.Publish? && e.packet.topic == t then before + [e.packet] else before
  }

  /** The last retain-flagged publish of a log, or what was there before it. */
  function LastRetained(log: seq<PublishPacket>, before: Option<PublishPacket>): Option<PublishPacket> {
    if log == [] then before
    else if log[|log| - 1].retain then Some(log[|log| - 1])
    else LastRetained(log[..|log| - 1], before)
  }

  ghost function Holders(w: World, t: Topic): set<nat> {
    set s | s in w.sessions && t in w.sessions[s]
  }

  // The invariant.

  /** A subscription, its receiver's position and its wire agree with the topic's log. */
  ghost predicate SubOk(past: Subscription, next: nat, wire: Wire<PublishPacket>, log: seq<PublishPacket>,
                        before: Option<PublishPacket>)
  {
    && next <= wire.tail
    && past.since + (wire.tail - next) <= |log|
    && past.greeting == LastRetained(log[..past.since], before)
    && Unread(wire, next, log)
    && Yielded(past, |log| - (wire.tail - next), log)
  }

  /** What was yielded is in order and without repeats, and has no gap unless the receiver lagged. */
  ghost predicate Yielded(past: Subscription, read: int, log: seq<PublishPacket>) {
    && read <= |log|
    && |past.heard| == |past.got|
    && (forall j :: 0 <= j < |past.heard| ==> past.since <= past.heard[j] < read)
    && (forall j :: 0 <= j < |past.heard| ==> past.got[j] == log[past.heard[j]])
    && (forall j, k :: 0 <= j < k < |past.heard| ==> past.heard[j] < past.heard[k])
    && (past.peak <= CAPACITY ==>
          past.since + |past.heard| == read && forall j :: 0 <= j < |past.heard| ==> past.heard[j] == past.since + j)
  }

  ghost predicate HeldOk(w: World, s: nat, t: Topic, boot: Registry)
    requires ValidRegistry(w.reg) && Holds(w, s, t)
  {
    var h := w.sessions[s][t];
    && t in w.reg.channels
    && h.receiver.wire == w.reg.channels[t].sender
    && SubOk(h.past, h.receiver.next, w.reg.wires[h.receiver.wire], LogOf(w, t), Retained(boot, t))
  }

  ghost predicate AllHeldOk(w: World, boot: Registry)
    requires ValidRegistry(w.reg)
  {
    forall s, t :: Holds(w, s, t) ==> HeldOk(w, s, t, boot)
  }

  ghost predicate Counted(w: World)
    requires ValidRegistry(w.reg)
  {
    forall t <- w.reg.channels :: w.reg.wires[w.reg.channels[t].sender].receivers == |Holders(w, t)|
  }

  ghost predicate Folded(w: World, boot: Registry) {
    && (forall t <- w.log :: t in w.reg.channels)
    && (forall t :: Retained(w.reg, t) == LastRetained(LogOf(w, t), Retained(boot, t)))
  }

  ghost predicate Inv(w: World, boot: Registry) {
    && ValidRegistry(w.reg)
    && AllHeldOk(w, boot)
    && Counted(w)
    && Folded(w, boot)
  }

  // Preservation, first for one subscription on its wire.

  lemma SubOkSend(past: Subscription, next: nat, wire: Wire<PublishPacket>, log: seq<PublishPacket>,
                  before: Option<PublishPacket>, p: PublishPacket)
    requires ValidWire(wire) && wire.receivers > 0 && SubOk(past, next, wire, log, before)
    ensures SubOk(past, next, Send(wire, p), log + [p], before)
  {
    var wire', log' := Send(wire, p), log + [p];
    assert log'[..past.since] == log[..past.since];
    forall i | 1 <= i <= wire'.tail - next && i <= |wire'.kept| && i <= |log'|
      ensures FromEnd(wire'.kept, i) == FromEnd(log', i)
    {
      if i > 1 {
        assert FromEnd(wire.kept, i - 1) == FromEnd(log, i - 1);
      }
    }
  }

  /** Yielding the next message of the log. */
  lemma YieldedNext(past: Subscription, read: nat, log: seq<PublishPacket>, n: nat)
    requires Yielded(past, read, log) && past.since <= read < |log|
    ensures Yielded(past.(peak := Max(past.peak, n), heard := past.heard + [read], got := past.got + [log[read]]),
                    read + 1, log)
  {
  }

  /** A lag skips messages, and is on record. */
  lemma YieldedLag(past: Subscription, read: nat, read': nat, log: seq<PublishPacket>, n: nat)
    requires Yielded(past, read, log) && read <= read' <= |log| && n > CAPACITY
    ensures Yielded(past.(peak := Max(past.peak, n)), read', log)
  {
  }

  lemma UnreadLater(wire: Wire<PublishPacket>, next: nat, later: nat, log: seq<PublishPacket>)
    requires Unread(wire, next, log) && next <= later
    ensures Unread(wire, later, log)
  {
  }

  lemma SubOkLag(past: Subscription, next: nat, wire: Wire<PublishPacket>, log: seq<PublishPacket>,
                 before: Option<PublishPacket>)
    requires SubOk(past, next, wire, log, before) && wire.tail - next > CAPACITY
    ensures SubOk(past.(peak := Max(past.peak, wire.tail - next)), wire.tail - CAPACITY, wire, log, before)
  {
    var n := wire.tail - next;
    UnreadLater(wire, next, wire.tail - CAPACITY, log);
    YieldedLag(past, |log| - n, |log| - CAPACITY, log, n);
  }

  lemma SubOkMessage(past: Subscription, next: nat, wire: Wire<PublishPacket>, log: seq<PublishPacket>,
                     before: Option<PublishPacket>)
    requires SubOk(past, next, wire, log, before) && next < wire.tail
    ensures var n := wire.tail - next;
            var read := |log| - n;
            SubOk(past.(peak := Max(past.peak, n), heard := past.heard + [read], got := past.got + [log[read]]),
                  next + 1, wire, log, before)
  {
    var n := wire.tail - next;
    UnreadLater(wire, next, next + 1, log);
    YieldedNext(past, |log| - n, log, n);
  }

  lemma AfterLag(h: Held, wire: Wire<PublishPacket>, logged: nat)
    requires ValidWire(wire) && Backlog(wire, h.receiver.next) > CAPACITY
    ensures After(h, wire, logged) ==
            Held(h.receiver.(next := wire.tail - CAPACITY),
                 h.past.(peak := Max(h.past.peak, wire.tail - h.receiver.next)))
  {
  }

  lemma AfterMessage(h: Held, wire: Wire<PublishPacket>, log: seq<PublishPacket>)
    requires ValidWire(wire) && 0 < Backlog(wire, h.receiver.next) <= CAPACITY
    requires var n := Backlog(wire, h.receiver.next); n <= |log| && FromEnd(wire.kept, n) == FromEnd(log, n)
    ensures var n := wire.tail - h.receiver.next;
            var read := |log| - n;
            After(h, wire, |log|) ==
            Held(h.receiver.(next := h.receiver.next + 1),
                 h.past.(peak := Max(h.past.peak, n), heard := h.past.heard + [read], got := h.past.got + [log[read]]))
  {
  }

  /** The subscription agrees with the log after one receive. */
  ghost predicate AfterOk(h: Held, wire: Wire<PublishPacket>, log: seq<PublishPacket>, before: Option<PublishPacket>) {
    var h' := After(h, wire, |log|);
    SubOk(h'.past, h'.receiver.next, wire, log, before) && h'.receiver.wire == h.receiver.wire
  }

  lemma RecvMessage(h: Held, wire: Wire<PublishPacket>, log: seq<PublishPacket>, before: Option<PublishPacket>)
    requires ValidWire(wire) && SubOk(h.past, h.receiver.next, wire, log, before)
    requires 0 < Backlog(wire, h.receiver.next) <= CAPACITY
    ensures AfterOk(h, wire, log, before)
  {
    var n := Backlog(wire, h.receiver.next);
    assert FromEnd(wire.kept, n) == FromEnd(log, n);
    AfterMessage(h, wire, log);
    SubOkMessage(h.past, h.receiver.next, wire, log, before);
  }

  lemma RecvLag(h: Held, wire: Wire<PublishPacket>, log: seq<PublishPacket>, before: Option<PublishPacket>)
    requires ValidWire(wire) && SubOk(h.past, h.receiver.next, wire, log, before)
    requires Backlog(wire, h.receiver.next) > CAPACITY
    ensures AfterOk(h, wire, log, before)
  {
    AfterLag(h, wire, |log|);
    SubOkLag(h.past, h.receiver.next, wire, log, before);
  }

  lemma SubOkRecv(h: Held, wire: Wire<PublishPacket>, log: seq<PublishPacket>, before: Option<PublishPacket>)
    requires ValidWire(wire) && SubOk(h.past, h.receiver.next, wire, log, before)
    ensures AfterOk(h, wire, log, before)
  {
    if Backlog(wire, h.receiver.next) > CAPACITY {
      RecvLag(h, wire, log, before);
    } else if Backlog(wire, h.receiver.next) > 0 {
      RecvMessage(h, wire, log, before);
    }
  }

  lemma SubOkNew(wire: Wire<PublishPacket>, log: seq<PublishPacket>, before: Option<PublishPacket>)
    ensures SubOk(Subscription(|log|, LastRetained(log, before), [], [], 0), wire.tail, wire, log, before)
  {
    assert log[..|log|] == log;
  }

  // Then for each step of the broker.

  lemma PublishKeepsHeld(w: World, p: PublishPacket, boot: Registry, s: nat, t: Topic)
    requires Inv(w, boot) && Holds(w, s, t) && ValidRegistry(Published(w.reg, p))
    ensures HeldOk(StepPublish(w, p), s, t, boot)
  {
    var h := w.sessions[s][t];
    assert HeldOk(w, s, t, boot) && s in Holders(w, t);
    PublishedChannel(w.reg, p, t);
    if t == p.topic {
      SubOkSend(h.past, h.receiver.next, w.reg.wires[h.receiver.wire], LogOf(w, t), Retained(boot, t), p);
    }
  }

  lemma PublishKeepsCount(w: World, p: PublishPacket, boot: Registry)
    requires ValidRegistry(w.reg) && AllHeldOk(w, boot) && Counted(w) && ValidRegistry(Published(w.reg, p))
    ensures Counted(StepPublish(w, p))
  {
    var w' := StepPublish(w, p);
    forall t | t in w'.reg.channels ensures w'.reg.wires[w'.reg.channels[t].sender].receivers == |Holders(w', t)| {
      assert Holders(w', t) == Holders(w, t);
      if t in w.reg.channels {
        PublishedChannel(w.reg, p, t);
      } else {
        UnknownTopicNotHeld(w, t, boot);
      }
    }
  }

  lemma FoldSnoc(log: seq<PublishPacket>, p: PublishPacket, before: Option<PublishPacket>)
    ensures LastRetained(log + [p], before) == if p.retain then Some(p) else LastRetained(log, before)
  {
    assert (log + [p])[..|log|] == log;
  }

  lemma PublishKeepsFold(w: World, p: PublishPacket, boot: Registry)
    requires ValidRegistry(w.reg) && Folded(w, boot)
    ensures Folded(StepPublish(w, p), boot)
  {
    var w' := StepPublish(w, p);
    forall t ensures Retained(w'.reg, t) == LastRetained(LogOf(w', t), Retained(boot, t)) {
      PublishedRetained(w.reg, p, t);
      FoldSnoc(LogOf(w, t), p, Retained(boot, t));
    }
    forall t | t in w'.log ensures t in w'.reg.channels {
      if t in w.log { PublishedChannel(w.reg, p, t); }
    }
  }

  lemma SubOkCount(past: Subscription, next: nat, wire: Wire<PublishPacket>, n: nat, log: seq<PublishPacket>,
                   before: Option<PublishPacket>)
    requires SubOk(past, next, wire, log, before)
    ensures SubOk(past, next, wire.(receivers := n), log, before)
  {
  }

  /** What a subscription does to one channel of the registry. */
  lemma SubscribeChannel(w: World, s: nat, t: Topic, boot: Registry, u: Topic)
    requires ValidRegistry(w.reg) && AllHeldOk(w, boot) && s in w.sessions && (u in w.reg.channels || u == t)
    ensures var w' := StepSubscribe(w, s, t);
            && ValidRegistry(w'.reg)
            && u in w'.reg.channels
            && w'.reg.channels[u] == (if u in w.reg.channels then w.reg.channels[u] else Channel(|w.reg.wires|, None))
            && var was := if u in w.reg.channels then w.reg.wires[w.reg.channels[u].sender] else NewWire(0);
               w'.reg.wires[w'.reg.channels[u].sender] ==
               if u == t && t !in w.sessions[s] then was.(receivers := was.receivers + 1) else was
  {
    SubscribedValid(w.reg, t);
    SubscribedChannel(w.reg, t, u);
    if t in w.sessions[s] {
      assert Holds(w, s, t) && HeldOk(w, s, t, boot);
      DroppedValid(Subscribed(w.reg, t), w.sessions[s][t].receiver);
      SubscribedChannel(w.reg, t, t);
    }
  }

  lemma SubscribeNewHeld(w: World, s: nat, t: Topic, boot: Registry)
    requires ValidRegistry(w.reg) && AllHeldOk(w, boot) && Folded(w, boot) && s in w.sessions
    ensures ValidRegistry(StepSubscribe(w, s, t).reg) && HeldOk(StepSubscribe(w, s, t), s, t, boot)
  {
    var w' := StepSubscribe(w, s, t);
    SubscribeChannel(w, s, t, boot, t);
    SubscribedChannel(w.reg, t, t);
    SubOkNew(w'.reg.wires[w'.reg.channels[t].sender], LogOf(w, t), Retained(boot, t));
    assert Retained(w.reg, t) == LastRetained(LogOf(w, t), Retained(boot, t));
  }

  lemma SubscribeOtherHeld(w: World, s: nat, t: Topic, boot: Registry, s': nat, u: Topic)
    requires ValidRegistry(w.reg) && AllHeldOk(w, boot) && s in w.sessions
    requires Holds(StepSubscribe(w, s, t), s', u) && (s' != s || u != t)
    ensures ValidRegistry(StepSubscribe(w, s, t).reg) && HeldOk(StepSubscribe(w, s, t), s', u, boot)
  {
    var w' := StepSubscribe(w, s, t);
    assert Holds(w, s', u) && HeldOk(w, s', u, boot);
    SubscribeChannel(w, s, t, boot, u);
    var h := w.sessions[s'][u];
    SubOkCount(h.past, h.receiver.next, w.reg.wires[h.receiver.wire], w'.reg.wires[h.receiver.wire].receivers,
               LogOf(w, u), Retained(boot, u));
  }

  lemma SubscribeKeepsHeld(w: World, s: nat, t: Topic, boot: Registry, s': nat, u: Topic)
    requires ValidRegistry(w.reg) && AllHeldOk(w, boot) && Folded(w, boot) && s in w.sessions
    requires Holds(StepSubscribe(w, s, t), s', u)
    ensures ValidRegistry(StepSubscribe(w, s, t).reg) && HeldOk(StepSubscribe(w, s, t), s', u, boot)
  {
    if s' == s && u == t {
      SubscribeNewHeld(w, s, t, boot);
    } else {
      SubscribeOtherHeld(w, s, t, boot, s', u);
    }
  }

  lemma HoldersAfterSubscribe(w: World, s: nat, t: Topic, u: Topic)
    requires s in w.sessions
    ensures Holders(StepSubscribe(w, s, t), u) == if u == t then Holders(w, t) + {s} else Holders(w, u)
  {
  }

  lemma UnknownTopicNotHeld(w: World, t: Topic, boot: Registry)
    requires ValidRegistry(w.reg) && AllHeldOk(w, boot) && t !in w.reg.channels
    ensures Holders(w, t) == {}
  {
    assert forall s <- w.sessions :: !Holds(w, s, t);
  }

  lemma SubscribeKeepsCount(w: World, s: nat, t: Topic, boot: Registry)
    requires ValidRegistry(w.reg) && AllHeldOk(w, boot) && Counted(w) && s in w.sessions
    requires ValidRegistry(StepSubscribe(w, s, t).reg)
    ensures Counted(StepSubscribe(w, s, t))
  {
    var w' := StepSubscribe(w, s, t);
    forall u | u in w'.reg.channels ensures w'.reg.wires[w'.reg.channels[u].sender].receivers == |Holders(w', u)| {
      SubscribeKeepsCountOf(w, s, t, boot, u);
    }
  }

  lemma CountAfterSubscribe(w: World, s: nat, t: Topic, u: Topic)
    requires s in w.sessions
    ensures |Holders(StepSubscribe(w, s, t), u)| == |Holders(w, u)| + if u == t && t !in w.sessions[s] then 1 else 0
  {
    HoldersAfterSubscribe(w, s, t, u);
    assert s in Holders(w, t) <==> t in w.sessions[s];
    assert s in Holders(w, t) ==> Holders(w, t) + {s} == Holders(w, t);
  }

  lemma SubscribeKeepsCountOf(w: World, s: nat, t: Topic, boot: Registry, u: Topic)
    requires ValidRegistry(w.reg) && AllHeldOk(w, boot) && Counted(w) && s in w.sessions
    requires u in StepSubscribe(w, s, t).reg.channels
    ensures var w' := StepSubscribe(w, s, t);
            && w'.reg.channels[u].sender < |w'.reg.wires|
            && w'.reg.wires[w'.reg.channels[u].sender].receivers == |Holders(w', u)|
  {
    SubscribeChannel(w, s, t, boot, u);
    CountAfterSubscribe(w, s, t, u);
    if u !in w.reg.channels {
      UnknownTopicNotHeld(w, u, boot);
    }
  }

  lemma SubscribeKeepsFold(w: World, s: nat, t: Topic, boot: Registry)
    requires Inv(w, boot) && s in w.sessions
    ensures Folded(StepSubscribe(w, s, t), boot)
  {
    var w' := StepSubscribe(w, s, t);
    forall u ensures Retained(w'.reg, u) == LastRetained(LogOf(w', u), Retained(boot, u)) {
      assert Retained(w.reg, u) == LastRetained(LogOf(w, u), Retained(boot, u));
      if u in w.reg.channels || u == t {
        SubscribeChannel(w, s, t, boot, u);
      }
    }
    forall u | u in w'.log ensures u in w'.reg.channels {
      SubscribeChannel(w, s, t, boot, u);
    }
  }

  lemma DropKeepsHeld(w: World, s: nat, t: Topic, boot: Registry, s': nat, u: Topic)
    requires Inv(w, boot) && Holds(w, s, t) && Holds(StepDrop(w, s, t), s', u)
    requires ValidRegistry(StepDrop(w, s, t).reg)
    ensures HeldOk(StepDrop(w, s, t), s', u, boot)
  {
    assert Holds(w, s', u) && HeldOk(w, s', u, boot);
    var h := w.sessions[s'][u];
    SubOkCount(h.past, h.receiver.next, w.reg.wires[h.receiver.wire],
               StepDrop(w, s, t).reg.wires[h.receiver.wire].receivers, LogOf(w, u), Retained(boot, u));
  }

  lemma DropKeepsCount(w: World, s: nat, t: Topic, boot: Registry)
    requires ValidRegistry(w.reg) && AllHeldOk(w, boot) && Counted(w) && Holds(w, s, t)
    requires ValidRegistry(StepDrop(w, s, t).reg)
    ensures Counted(StepDrop(w, s, t))
  {
    var w' := StepDrop(w, s, t);
    assert HeldOk(w, s, t, boot);
    forall u | u in w'.reg.channels ensures w'.reg.wires[w'.reg.channels[u].sender].receivers == |Holders(w', u)| {
      if u == t {
        assert s in Holders(w, t);
        assert Holders(w', t) == Holders(w, t) - {s};
      } else {
        assert Holders(w', u) == Holders(w, u);
      }
    }
  }

  lemma ReceiveKeepsHeld(w: World, s: nat, t: Topic, boot: Registry, s': nat, u: Topic)
    requires ValidRegistry(w.reg) && AllHeldOk(w, boot) && Holds(w, s, t) && Holds(StepReceive(w, s, t), s', u)
    ensures Holds(w, s', u) && HeldOk(StepReceive(w, s, t), s', u, boot)
  {
    assert HeldOk(w, s, t, boot);
    assert Holds(w, s', u) && HeldOk(w, s', u, boot);
    if s' == s && u == t {
      SubOkRecv(w.sessions[s][t], w.reg.wires[w.sessions[s][t].receiver.wire], LogOf(w, t), Retained(boot, t));
    }
  }

  lemma ReceiveKeepsInv(w: World, s: nat, t: Topic, boot: Registry)
    requires Inv(w, boot) && Holds(w, s, t)
    ensures Inv(StepReceive(w, s, t), boot)
  {
    var w' := StepReceive(w, s, t);
    forall s', u | Holds(w', s', u) ensures HeldOk(w', s', u, boot) {
      ReceiveKeepsHeld(w, s, t, boot, s', u);
    }
    SameHolders(w, w');
    assert forall u :: LogOf(w', u) == LogOf(w, u);
  }

  lemma SameHolders(w: World, w': World)
    requires ValidRegistry(w.reg) && Counted(w) && w'.reg == w.reg
    requires forall s, t :: Holds(w', s, t) == Holds(w, s, t)
    ensures Counted(w')
  {
    forall t | t in w.reg.channels ensures Holders(w', t) == Holders(w, t) {
      assert forall s :: s in Holders(w', t) <==> Holds(w', s, t);
      assert forall s :: s in Holders(w, t) <==> Holds(w, s, t);
    }
  }

  /** A step that changes neither the registry nor any subscription. */
  lemma SameSubscriptions(w: World, w': World, boot: Registry)
    requires Inv(w, boot) && w'.reg == w.reg && w'.log == w.log
    requires forall s, t :: Holds(w', s, t) == Holds(w, s, t)
    requires forall s, t :: Holds(w, s, t) && Holds(w', s, t) ==> w'.sessions[s][t] == w.sessions[s][t]
    ensures Inv(w', boot)
  {
    SameHolders(w, w');
    forall s, t | Holds(w', s, t) ensures HeldOk(w', s, t, boot) {
      assert HeldOk(w, s, t, boot);
    }
    assert forall u :: LogOf(w', u) == LogOf(w, u);
  }

  lemma PublishKeepsInv(w: World, p: PublishPacket, boot: Registry)
    requires Inv(w, boot)
    ensures Inv(StepPublish(w, p), boot)
  {
    var w' := StepPublish(w, p);
    PublishedValid(w.reg, p);
    forall s, t | Holds(w', s, t) ensures HeldOk(w', s, t, boot) {
      assert Holds(w, s, t);
      PublishKeepsHeld(w, p, boot, s, t);
    }
    PublishKeepsCount(w, p, boot);
    PublishKeepsFold(w, p, boot);
  }

  lemma SubscribeKeepsInv(w: World, s: nat, t: Topic, boot: Registry)
    requires Inv(w, boot) && s in w.sessions
    ensures Inv(StepSubscribe(w, s, t), boot)
  {
    var w' := StepSubscribe(w, s, t);
    SubscribeChannel(w, s, t, boot, t);
    forall s', u | Holds(w', s', u) ensures HeldOk(w', s', u, boot) {
      SubscribeKeepsHeld(w, s, t, boot, s', u);
    }
    SubscribeKeepsCount(w, s, t, boot);
    SubscribeKeepsFold(w, s, t, boot);
  }

  lemma DropKeepsInv(w: World, s: nat, t: Topic, boot: Registry)
    requires Inv(w, boot) && Holds(w, s, t)
    ensures Inv(StepDrop(w, s, t), boot)
  {
    var w' := StepDrop(w, s, t);
    DroppedValid(w.reg, w.sessions[s][t].receiver);
    forall s', u | Holds(w', s', u) ensures HeldOk(w', s', u, boot) {
      DropKeepsHeld(w, s, t, boot, s', u);
    }
    DropKeepsCount(w, s, t, boot);
    assert forall u :: LogOf(w', u) == LogOf(w, u) && Retained(w'.reg, u) == Retained(w.reg, u);
  }

  lemma OpenKeepsInv(w: World, s: nat, boot: Registry)
    requires Inv(w, boot)
    ensures Inv(Step(w, Open(s)), boot)
  {
    if s !in w.sessions {
      SameSubscriptions(w, Step(w, Open(s)), boot);
    }
  }

  lemma CloseKeepsInv(w: World, s: nat, boot: Registry)
    requires Inv(w, boot)
    ensures Inv(Step(w, Close(s)), boot)
  {
    if s in w.sessions && w.sessions[s] == map[] {
      SameSubscriptions(w, Step(w, Close(s)), boot);
    }
  }

  lemma SubscribeStepKeepsInv(w: World, e: Event, boot: Registry)
    requires Inv(w, boot) && e.Subscribe?
    ensures Inv(Step(w, e), boot)
  {
    if e.session in w.sessions { SubscribeKeepsInv(w, e.session, e.topic, boot); }
  }

  lemma DropStepKeepsInv(w: World, e: Event, boot: Registry)
    requires Inv(w, boot) && e.Drop?
    ensures Inv(Step(w, e), boot)
  {
    if Holds(w, e.session, e.topic) { DropKeepsInv(w, e.session, e.topic, boot); }
  }

  lemma ReceiveStepKeepsInv(w: World, e: Event, boot: Registry)
    requires Inv(w, boot) && e.Receive?
    ensures Inv(Step(w, e), boot)
  {
    if Holds(w, e.session, e.topic) { ReceiveKeepsInv(w, e.session, e.topic, boot); }
  }

  lemma StepKeepsInv(w: World, e: Event, boot: Registry)
    requires Inv(w, boot)
    ensures Inv(Step(w, e), boot)
  {
    match e {
      case Open(s) => OpenKeepsInv(w, s, boot);
      case Close(s) => CloseKeepsInv(w, s, boot);
      case Subscribe(_, _) => SubscribeStepKeepsInv(w, e, boot);
      case Drop(_, _) => DropStepKeepsInv(w, e, boot);
      case Publish(_, p) => PublishKeepsInv(w, p, boot);
      case Receive(_, _) => ReceiveStepKeepsInv(w, e, boot);
    }
  }

  /** The invariant holds in every run, whatever the interleaving. */
  lemma {:induction false} RunKeepsInv(boot: Registry, es: seq<Event>)
    requires Booted(boot)
    ensures Inv(Run(boot, es), boot)
  {
    if es == [] {
      assert forall t :: Holders(Run(boot, []), t) == {};
    } else {
      RunKeepsInv(boot, es[..|es| - 1]);
      StepKeepsInv(Run(boot, es[..|es| - 1]), es[|es| - 1], boot);
    }
  }

  // The theorems.

  lemma {:induction false} LogIsPublishes(boot: Registry, es: seq<Event>, t: Topic)
    ensures LogOf(Run(boot, es), t) == PublishesTo(es, t)
  {
    if es != [] {
      LogIsPublishes(boot, es[..|es| - 1], t);
    }
  }

  /** The registry refines a fold over the history: nothing but retain-flagged publishes to `t` counts. */
  lemma RetainedIsFold(boot: Registry, es: seq<Event>, t: Topic)
    requires Booted(boot)
    ensures Retained(Run(boot, es).reg, t) == LastRetained(PublishesTo(es, t), Retained(boot, t))
  {
    RunKeepsInv(boot, es);
    LogIsPublishes(boot, es, t);
  }

  /** A topic's receiver count is the number of sessions holding it, so a send fails exactly when none does. */
  lemma ReceiverAccounting(boot: Registry, es: seq<Event>, t: Topic)
    requires Booted(boot) && t in Run(boot, es).reg.channels
    ensures var w := Run(boot, es);
            && w.reg.channels[t].sender < |w.reg.wires|
            && var count := w.reg.wires[w.reg.channels[t].sender].receivers;
               && count == |Holders(w, t)|
               && (count == 0 <==> forall s :: !Holds(w, s, t))
  {
    RunKeepsInv(boot, es);
    var w := Run(boot, es);
    assert forall s :: s in Holders(w, t) <==> Holds(w, s, t);
    if Holders(w, t) != {} {
      var s :| s in Holders(w, t);
      assert Holds(w, s, t);
    }
  }

  lemma StepKeepsSenders(w: World, e: Event, boot: Registry, t: Topic)
    requires Inv(w, boot) && t in w.reg.channels
    ensures t in Step(w, e).reg.channels && Step(w, e).reg.channels[t].sender == w.reg.channels[t].sender
  {
    if e.Subscribe? && e.session in w.sessions {
      SubscribeChannel(w, e.session, e.topic, boot, t);
    } else if e.Publish? {
      PublishedChannel(w.reg, e.packet, t);
    }
  }

  /** No channel is ever replaced: a topic keeps its wire for good, and every live receiver reads it. */
  lemma {:induction false} NoChannelReplaced(boot: Registry, es: seq<Event>, k: nat, t: Topic)
    requires Booted(boot) && k <= |es| && t in Run(boot, es[..k]).reg.channels
    ensures t in Run(boot, es).reg.channels
    ensures Run(boot, es).reg.channels[t].sender == Run(boot, es[..k]).reg.channels[t].sender
    ensures forall s :: Holds(Run(boot, es), s, t) ==>
              Run(boot, es).sessions[s][t].receiver.wire == Run(boot, es).reg.channels[t].sender
  {
    RunKeepsInv(boot, es);
    if k < |es| {
      var init := es[..|es| - 1];
      assert init[..k] == es[..k];
      NoChannelReplaced(boot, init, k, t);
      RunKeepsInv(boot, init);
      StepKeepsSenders(Run(boot, init), es[|es| - 1], boot, t);
    } else {
      assert es[..k] == es;
    }
    forall s | Holds(Run(boot, es), s, t)
      ensures Run(boot, es).sessions[s][t].receiver.wire == Run(boot, es).reg.channels[t].sender
    {
      assert HeldOk(Run(boot, es), s, t, boot);
    }
  }

  /** What the invariant says of one live subscription, in terms of the events. */
  lemma {:induction false} LiveSubscription(boot: Registry, es: seq<Event>, s: nat, t: Topic)
    requires Booted(boot) && Holds(Run(boot, es), s, t)
    ensures var w := Run(boot, es);
            var h := w.sessions[s][t];
            && h.receiver.wire < |w.reg.wires| && ValidWire(w.reg.wires[h.receiver.wire])
            && SubOk(h.past, h.receiver.next, w.reg.wires[h.receiver.wire], PublishesTo(es, t), Retained(boot, t))
  {
    RunKeepsInv(boot, es);
    LogIsPublishes(boot, es, t);
    assert HeldOk(Run(boot, es), s, t, boot);
  }

  /**
   What a receiver has yielded is an in-order subsequence without repeats of the log since the
   subscription, and left alone it still yields exactly the last min(n, 1024) messages of the
   log, where n is its backlog.
   */
  ghost predicate DeliversInOrder(past: Subscription, next: nat, wire: Wire<PublishPacket>, log: seq<PublishPacket>) {
    var n := Backlog(wire, next);
    && past.since + n <= |log|
    && |past.heard| == |past.got|
    && (forall j :: 0 <= j < |past.heard| ==>
          past.since <= past.heard[j] < |log| - n && past.got[j] == log[past.heard[j]])
    && (forall j, k :: 0 <= j < k < |past.heard| ==> past.heard[j] < past.heard[k])
    && DrainTrace(wire, next) == DrainOf(n, log)
  }

  lemma SubOkDelivers(past: Subscription, next: nat, wire: Wire<PublishPacket>, log: seq<PublishPacket>,
                      before: Option<PublishPacket>)
    requires ValidWire(wire) && SubOk(past, next, wire, log, before)
    ensures DeliversInOrder(past, next, wire, log)
  {
    QuiescentDrain(wire, next, log);
  }

  /** Ordered delivery, for every live subscription of every run. */
  lemma {:induction false} OrderedDelivery(boot: Registry, es: seq<Event>, s: nat, t: Topic)
    requires Booted(boot) && Holds(Run(boot, es), s, t)
    ensures var w := Run(boot, es);
            var h := w.sessions[s][t];
            && h.receiver.wire < |w.reg.wires|
            && DeliversInOrder(h.past, h.receiver.next, w.reg.wires[h.receiver.wire], PublishesTo(es, t))
  {
    LiveSubscription(boot, es, s, t);
    var w := Run(boot, es);
    var h := w.sessions[s][t];
    SubOkDelivers(h.past, h.receiver.next, w.reg.wires[h.receiver.wire], PublishesTo(es, t), Retained(boot, t));
  }

  /** Session `s` neither renews nor drops its subscription to `t` after event `k`. */
  ghost predicate Undisturbed(es: seq<Event>, k: nat, s: nat, t: Topic) {
    forall i :: k < i < |es| ==> es[i] != Subscribe(s, t) && es[i] != Drop(s, t)
  }

  /** A subscription outlives every event but its renewal and its removal. */
  lemma SubscriptionStays(w: World, e: Event, s: nat, t: Topic)
    requires Holds(w, s, t) && e != Subscribe(s, t) && e != Drop(s, t)
    ensures Holds(Step(w, e), s, t) && Step(w, e).sessions[s][t].past.since == w.sessions[s][t].past.since
  {
  }

  lemma {:induction false} SubscriptionPersists(boot: Registry, es: seq<Event>, k: nat, s: nat, t: Topic)
    requires Booted(boot) && k < |es| && es[k] == Subscribe(s, t) && s in Run(boot, es[..k]).sessions
    requires Undisturbed(es, k, s, t)
    ensures Holds(Run(boot, es), s, t)
    ensures Run(boot, es).sessions[s][t].past.since == |PublishesTo(es[..k], t)|
    ensures PublishesTo(es[..k], t) <= PublishesTo(es, t)
  {
    var init := es[..|es| - 1];
    if k < |init| {
      assert init[..k] == es[..k];
      assert Undisturbed(init, k, s, t);
      SubscriptionPersists(boot, init, k, s, t);
      SubscriptionStays(Run(boot, init), es[|es| - 1], s, t);
    } else {
      assert init == es[..k];
      LogIsPublishes(boot, init, t);
    }
  }

  lemma YieldedWhole(past: Subscription, read: int, log: seq<PublishPacket>)
    requires Yielded(past, read, log) && past.peak <= CAPACITY
    ensures past.since <= read <= |log| && past.got == log[past.since..read]
  {
    forall j | 0 <= j < |past.got| ensures past.got[j] == log[past.since..read][j] {
      assert past.heard[j] == past.since + j;
    }
  }

  /**
   While no backlog exceeded the channel's capacity, what was yielded and what is still to come
   make up exactly the log from `since` on.
   */
  lemma SubOkGapless(past: Subscription, next: nat, wire: Wire<PublishPacket>, log: seq<PublishPacket>,
                     before: Option<PublishPacket>)
    requires ValidWire(wire) && SubOk(past, next, wire, log, before)
    requires past.peak <= CAPACITY && Backlog(wire, next) <= CAPACITY
    ensures Messages(past.got) + DrainTrace(wire, next) == Messages(log[past.since..])
  {
    var n := Backlog(wire, next);
    QuiescentDrain(wire, next, log);
    YieldedWhole(past, |log| - n, log);
    assert log[past.since..] == log[past.since..|log| - n] + log[|log| - n..];
  }

  /**
   The atomic cut: a subscription made at event `k` is greeted with exactly the latest retained
   publish before `k`, and what it yields and will yield are exactly the publishes from `k` on,
   as long as its backlog stays within the channel's capacity. No publish is in both parts or in neither.
   */
  lemma {:induction false} SubscribeCut(boot: Registry, es: seq<Event>, k: nat, s: nat, t: Topic)
    requires Booted(boot) && k < |es| && es[k] == Subscribe(s, t) && s in Run(boot, es[..k]).sessions
    requires Undisturbed(es, k, s, t)
    ensures Holds(Run(boot, es), s, t)
    ensures var w, before, log := Run(boot, es), PublishesTo(es[..k], t), PublishesTo(es, t);
            var h := w.sessions[s][t];
            && before <= log
            && h.past.greeting == LastRetained(before, Retained(boot, t))
            && h.receiver.wire < |w.reg.wires|
            && var wire := w.reg.wires[h.receiver.wire];
               h.past.peak <= CAPACITY && Backlog(wire, h.receiver.next) <= CAPACITY ==>
                 Messages(h.past.got) + DrainTrace(wire, h.receiver.next) == Messages(log[|before|..])
  {
    SubscriptionPersists(boot, es, k, s, t);
    LiveSubscription(boot, es, s, t);
    var w, log := Run(boot, es), PublishesTo(es, t);
    var h := w.sessions[s][t];
    var wire := w.reg.wires[h.receiver.wire];
    assert log[..h.past.since] == PublishesTo(es[..k], t);
    if h.past.peak <= CAPACITY && Backlog(wire, h.receiver.next) <= CAPACITY {
      SubOkGapless(h.past, h.receiver.next, wire, log, Retained(boot, t));
    }
  }
}
