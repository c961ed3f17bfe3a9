/**
 The registry and the receivers of all sessions as one shared state without history, and the story of one
 session in a run of the broker: what it published, was greeted with, heard and asked for.
 */
module Sharing {
  import opened Prelude
  import opened Packets
  import opened Broadcast
  import opened Topics
  import opened Order
  import opened Scheduling
  import opened Subscriptions
  import Broker

  datatype Shared = Shared(reg: Registry, held: map<nat, Receivers>)

  predicate CanReceive(x: Shared, s: nat, t: Topic) {
    s in x.held && t in x.held[s] && x.held[s][t].wire < |x.reg.wires|
  }

  /** One event of the broker, without its history. */
  function Act(x: Shared, e: Broker.Event): Shared {
    match e
    case Open(s) => if s in x.held then x else x.(held := x.held[s := map[]])
    case Close(s) => if s in x.held && x.held[s] == map[] then x.(held := x.held - {s}) else x
    case Subscribe(s, t) =>
      if s !in x.held then x
      else var (r, m) := SubscribeOne(x.reg, x.held[s], t); Shared(r, x.held[s := m])
    case Drop(s, t) =>
      if s !in x.held then x
      else var (r, m) := UnsubscribeOne(x.reg, x.held[s], t); Shared(r, x.held[s := m])
    case Publish(_, p) => x.(reg := Published(x.reg, p))
    case Receive(s, t) =>
      if CanReceive(x, s, t) then x.(held := x.held[s := Served(t, x.held[s], x.reg.wires)]) else x
  }

  /** The shared state after events that start from a loaded registry. */
  function Play(boot: Registry, es: seq<Broker.Event>): Shared {
    if es == [] then Shared(boot, map[]) else Act(Play(boot, es[..|es| - 1]), es[|es| - 1])
  }

  // The shared state is what a run of the broker says, history aside.

  ghost function ReceiversOf(m: map<Topic, Broker.Held>): Receivers {
    map t | t in m :: m[t].receiver
  }

  ghost function Projection(w: Broker.World): Shared {
    Shared(w.reg, map s | s in w.sessions :: ReceiversOf(w.sessions[s]))
  }

  lemma SubscribeIsStep(w: Broker.World, s: nat, t: Topic)
    ensures Projection(Broker.Step(w, Broker.Subscribe(s, t))) == Act(Projection(w), Broker.Subscribe(s, t))
  {
    var w' := Broker.Step(w, Broker.Subscribe(s, t));
    if s in w.sessions {
      assert ReceiversOf(w'.sessions[s]) == ReceiversOf(w.sessions[s])[t := NewReceiver(w.reg, t)];
    }
  }

  lemma UnsubscribeIsStep(w: Broker.World, s: nat, t: Topic)
    ensures Projection(Broker.Step(w, Broker.Drop(s, t))) == Act(Projection(w), Broker.Drop(s, t))
  {
    var w' := Broker.Step(w, Broker.Drop(s, t));
    if s in w.sessions {
      assert ReceiversOf(w'.sessions[s]) == ReceiversOf(w.sessions[s]) - {t};
      assert t !in w.sessions[s] ==> ReceiversOf(w.sessions[s]) - {t} == ReceiversOf(w.sessions[s]);
    }
  }

  lemma ServeIsStep(w: Broker.World, s: nat, t: Topic)
    ensures Projection(Broker.Step(w, Broker.Receive(s, t))) == Act(Projection(w), Broker.Receive(s, t))
  {
    var w' := Broker.Step(w, Broker.Receive(s, t));
    if Broker.Holds(w, s, t) && w.sessions[s][t].receiver.wire < |w.reg.wires| {
      assert ReceiversOf(w'.sessions[s]) == Served(t, ReceiversOf(w.sessions[s]), w.reg.wires);
    }
  }

  lemma SessionIsStep(w: Broker.World, e: Broker.Event)
    requires e.Open? || e.Close?
    ensures Projection(Broker.Step(w, e)) == Act(Projection(w), e)
  {
    if e.session in w.sessions {
      assert ReceiversOf(w.sessions[e.session]) == map[] <==> w.sessions[e.session] == map[] by {
        assert ReceiversOf(w.sessions[e.session]).Keys == w.sessions[e.session].Keys;
      }
    }
  }

  lemma ActIsStep(w: Broker.World, e: Broker.Event)
    ensures Projection(Broker.Step(w, e)) == Act(Projection(w), e)
  {
    match e {
      case Subscribe(s, t) => SubscribeIsStep(w, s, t);
      case Drop(s, t) => UnsubscribeIsStep(w, s, t);
      case Receive(s, t) => ServeIsStep(w, s, t);
      case Publish(_, _) =>
      case _ => SessionIsStep(w, e);
    }
  }

  /** Registry and receivers after any events are those of the broker's run. */
  lemma {:induction false} PlayIsRun(boot: Registry, es: seq<Broker.Event>)
    ensures Play(boot, es) == Projection(Broker.Run(boot, es))
  {
    if es != [] {
      PlayIsRun(boot, es[..|es| - 1]);
      ActIsStep(Broker.Run(boot, es[..|es| - 1]), es[|es| - 1]);
    }
  }

  // Who does what.

  predicate IsOf(e: Broker.Event, me: nat) {
    match e
    case Publish(publisher, _) => publisher == Some(me)
    case _ => e.session == me
  }

  function ForeignOf(me: nat): Broker.Event -> seq<Broker.Event> {
    (e: Broker.Event) => if IsOf(e, me) then [] else [e]
  }

  /** The events of the other sessions and of the bus. */
  function Foreign(es: seq<Broker.Event>, me: nat): seq<Broker.Event> {
    Flat(es, ForeignOf(me))
  }

  lemma PutCommutes(held: map<nat, Receivers>, a: nat, m: Receivers, b: nat, n: Receivers)
    requires a != b
    ensures held[a := m][b := n] == held[b := n][a := m]
  {
  }

  /** What others do does not touch a session's receivers and does not depend on them. */
  lemma ActFrame(x: Shared, me: nat, m: Receivers, e: Broker.Event)
    requires me !in x.held && !IsOf(e, me)
    ensures me !in Act(x, e).held
    ensures Act(x.(held := x.held[me := m]), e) == Act(x, e).(held := Act(x, e).held[me := m])
  {
    if !e.Publish? {
      var s, x' := e.session, Act(x, e);
      if s in x'.held { PutCommutes(x.held, me, m, s, x'.held[s]); }
      assert x.held[me := m] - {s} == (x.held - {s})[me := m];
    }
  }

  /** A session's own subscription, removal and receive change its own receivers. */
  lemma ActOwn(r: Registry, held: map<nat, Receivers>, me: nat, m: Receivers, t: Topic)
    ensures var (r', m') := SubscribeOne(r, m, t);
            Act(Shared(r, held[me := m]), Broker.Subscribe(me, t)) == Shared(r', held[me := m'])
    ensures var (r', m') := UnsubscribeOne(r, m, t);
            Act(Shared(r, held[me := m]), Broker.Drop(me, t)) == Shared(r', held[me := m'])
    ensures t in m && m[t].wire < |r.wires| ==>
              Act(Shared(r, held[me := m]), Broker.Receive(me, t)) == Shared(r, held[me := Served(t, m, r.wires)])
  {
    assert held[me := m][me := SubscribeOne(r, m, t).1] == held[me := SubscribeOne(r, m, t).1];
    assert held[me := m][me := UnsubscribeOne(r, m, t).1] == held[me := UnsubscribeOne(r, m, t).1];
    if t in m && m[t].wire < |r.wires| {
      assert held[me := m][me := Served(t, m, r.wires)] == held[me := Served(t, m, r.wires)];
    }
  }

  lemma ActKeepsValid(x: Shared, e: Broker.Event)
    requires ValidRegistry(x.reg)
    ensures ValidRegistry(Act(x, e).reg)
  {
    match e {
      case Publish(_, p) => PublishedValid(x.reg, p);
      case Subscribe(s, t) =>
        SubscribedValid(x.reg, t);
        if s in x.held && t in x.held[s] { DroppedValid(Subscribed(x.reg, t), x.held[s][t]); }
      case Drop(s, t) =>
        if s in x.held && t in x.held[s] { DroppedValid(x.reg, x.held[s][t]); }
      case _ =>
    }
  }

  lemma ActKeepsWires(x: Shared, e: Broker.Event)
    requires ValidRegistry(x.reg)
    ensures ValidRegistry(Act(x, e).reg) && |Act(x, e).reg.wires| >= |x.reg.wires|
  {
    ActKeepsValid(x, e);
  }

  // The story of one session.

  /** `asked` are its subscriptions and removals, `orderly` says that it always received from the least ready
      topic, and `others` is what everybody else did. */
  datatype Story = Story(
    published: seq<PublishPacket>,
    greeted: seq<PublishPacket>,
    heard: seq<PublishPacket>,
    asked: seq<Broker.Event>,
    orderly: bool,
    others: seq<Broker.Event>)

  const UNTOLD := Story([], [], [], [], true, [])

  function Plus(y: Story, d: Story): Story {
    Story(y.published + d.published, y.greeted + d.greeted, y.heard + d.heard, y.asked + d.asked,
          y.orderly && d.orderly, y.others + d.others)
  }

  lemma PlusAssociates(y: Story, d: Story, c: Story)
    ensures Plus(Plus(y, d), c) == Plus(y, Plus(d, c))
  {
  }

  lemma PlusUntold(y: Story)
    ensures Plus(y, UNTOLD) == y
  {
  }

  function AsSeq<T>(o: Option<T>): seq<T> {
    if o.Some? then [o.value] else []
  }

  /** The message that a receive yields. */
  function HeardAt(x: Shared, s: nat, t: Topic): Option<PublishPacket> {
    if CanReceive(x, s, t) then MessageOf(Recv(x.reg.wires[x.held[s][t].wire], x.held[s][t].next).0) else None
  }

  function MessageOf(r: Received<PublishPacket>): Option<PublishPacket> {
    if r.Message? then Some(r.value) else None
  }

  /** What one event adds to the story of session `me`. */
  ghost function Chapter(x: Shared, e: Broker.Event, me: nat): Story {
    if !IsOf(e, me) then UNTOLD.(others := [e])
    else
      match e
      case Publish(_, p) => UNTOLD.(published := [p])
      case Subscribe(_, t) => UNTOLD.(greeted := if me in x.held then AsSeq(Retained(x.reg, t)) else [], asked := [e])
      case Receive(_, t) =>
        UNTOLD.(heard := AsSeq(HeardAt(x, me, t)), orderly := me in x.held && LeastReady(t, x.held[me], x.reg.wires))
      case _ => UNTOLD.(asked := [e])
  }

  ghost function StoryOf(boot: Registry, es: seq<Broker.Event>, me: nat): Story {
    if es == [] then UNTOLD
    else Plus(StoryOf(boot, es[..|es| - 1], me), Chapter(Play(boot, es[..|es| - 1]), es[|es| - 1], me))
  }

  /** The states and stories after each of the events. */
  ghost predicate Leads(boot: Registry, es: seq<Broker.Event>, zs: seq<Shared>, ys: seq<Story>, me: nat) {
    && |zs| == |ys| == |es| + 1
    && zs[0] == Shared(boot, map[]) && ys[0] == UNTOLD
    && forall k {:trigger es[k]} :: 0 <= k < |es| ==>
         zs[k + 1] == Act(zs[k], es[k]) && ys[k + 1] == Plus(ys[k], Chapter(zs[k], es[k], me))
  }

  /** The events lead to shared state `z`, and `y` is the story of session `me` so far. */
  ghost predicate Chronicle(boot: Registry, es: seq<Broker.Event>, z: Shared, y: Story, me: nat) {
    exists zs, ys :: Leads(boot, es, zs, ys, me) && zs[|es|] == z && ys[|es|] == y
  }

  lemma ChronicleSnoc(boot: Registry, es: seq<Broker.Event>, z: Shared, y: Story, me: nat, e: Broker.Event)
    requires Chronicle(boot, es, z, y, me)
    ensures Chronicle(boot, es + [e], Act(z, e), Plus(y, Chapter(z, e, me)), me)
  {
    var zs, ys :| Leads(boot, es, zs, ys, me) && zs[|es|] == z && ys[|es|] == y;
    var zs', ys', es' := zs + [Act(z, e)], ys + [Plus(y, Chapter(z, e, me))], es + [e];
    forall k | 0 <= k < |es'|
      ensures zs'[k + 1] == Act(zs'[k], es'[k]) && ys'[k + 1] == Plus(ys'[k], Chapter(zs'[k], es'[k], me))
    {
      if k < |es| { assert es'[k] == es[k]; }
    }
    assert Leads(boot, es', zs', ys', me);
  }

  lemma {:induction false} LeadsTo(boot: Registry, es: seq<Broker.Event>, zs: seq<Shared>, ys: seq<Story>, me: nat)
    requires Leads(boot, es, zs, ys, me)
    ensures zs[|es|] == Play(boot, es) && ys[|es|] == StoryOf(boot, es, me)
  {
    if es != [] {
      var n := |es| - 1;
      forall k | 0 <= k < n
        ensures zs[k + 1] == Act(zs[k], es[..n][k]) && ys[k + 1] == Plus(ys[k], Chapter(zs[k], es[..n][k], me))
      {
        assert es[..n][k] == es[k];
      }
      LeadsTo(boot, es[..n], zs[..n + 1], ys[..n + 1], me);
      assert es[n] == es[|es| - 1];
    }
  }

  /** A chronicle is what the functions say. */
  lemma ChronicleIs(boot: Registry, es: seq<Broker.Event>, z: Shared, y: Story, me: nat)
    ensures Chronicle(boot, es, z, y, me) <==> z == Play(boot, es) && y == StoryOf(boot, es, me)
  {
    if Chronicle(boot, es, z, y, me) {
      var zs, ys :| Leads(boot, es, zs, ys, me) && zs[|es|] == z && ys[|es|] == y;
      LeadsTo(boot, es, zs, ys, me);
    } else {
      var z', y' := ChronicleExists(boot, es, me);
      var zs, ys :| Leads(boot, es, zs, ys, me) && zs[|es|] == z' && ys[|es|] == y';
      LeadsTo(boot, es, zs, ys, me);
    }
  }

  lemma ChronicleUnique(boot: Registry, es: seq<Broker.Event>, z: Shared, y: Story, z': Shared, y': Story, me: nat)
    requires Chronicle(boot, es, z, y, me) && Chronicle(boot, es, z', y', me)
    ensures z == z' && y == y'
  {
    ChronicleIs(boot, es, z, y, me);
    ChronicleIs(boot, es, z', y', me);
  }

  lemma {:induction false} ChronicleExists(boot: Registry, es: seq<Broker.Event>, me: nat) returns (z: Shared, y: Story)
    ensures Chronicle(boot, es, z, y, me)
  {
    if es == [] {
      z, y := Shared(boot, map[]), UNTOLD;
      assert Leads(boot, es, [z], [y], me);
    } else {
      var z', y' := ChronicleExists(boot, es[..|es| - 1], me);
      ChronicleSnoc(boot, es[..|es| - 1], z', y', me, es[|es| - 1]);
      z, y := Act(z', es[|es| - 1]), Plus(y', Chapter(z', es[|es| - 1], me));
      assert es[..|es| - 1] + [es[|es| - 1]] == es;
    }
  }
}
