/**
 What the runs of the broker say about one session's story, and so about what its event loop delivers: the
 deliveries are what its subscriptions yielded, and with them come order, the cut and the key order.
 */
module SessionRuns {
  import opened Prelude
  import opened Packets
  import opened Broadcast
  import opened Topics
  import opened Order
  import opened Scheduling
  import opened Session
  import opened Subscriptions
  import opened Sharing
  import opened Turns
  import opened Resubscription
  import Acknowledgements
  import Broker

  function TopicPart(t: Topic): PublishPacket -> seq<PublishPacket> {
    (p: PublishPacket) => if p.topic == t then [p] else []
  }

  /** The packets of one topic. */
  function On(ps: seq<PublishPacket>, t: Topic): seq<PublishPacket> {
    Flat(ps, TopicPart(t))
  }

  lemma OnAppend(ps: seq<PublishPacket>, o: Option<PublishPacket>, t: Topic)
    ensures On(ps + AsSeq(o), t) == if o.Some? && o.value.topic == t then On(ps, t) + [o.value] else On(ps, t)
  {
    FlatConcat(ps, AsSeq(o), TopicPart(t));
    if o.Some? { assert [o.value][..0] == []; }
  }

  // What a receive yields is of its own topic.

  lemma {:induction false} PublishesTopic(es: seq<Broker.Event>, t: Topic)
    ensures forall p <- Broker.PublishesTo(es, t) :: p.topic == t
  {
    if es != [] {
      PublishesTopic(es[..|es| - 1], t);
    }
  }

  lemma MessageFromLog(past: Broker.Subscription, next: nat, wire: Wire<PublishPacket>, log: seq<PublishPacket>,
                       before: Option<PublishPacket>)
    requires ValidWire(wire) && Broker.SubOk(past, next, wire, log, before) && Recv(wire, next).0.Message?
    ensures Recv(wire, next).0.value in log
  {
    var n := Backlog(wire, next);
    assert FromEnd(wire.kept, n) == FromEnd(log, n);
  }

  lemma HeardTopic(boot: Registry, es: seq<Broker.Event>, s: nat, t: Topic)
    requires Broker.Booted(boot) && HeardAt(Projection(Broker.Run(boot, es)), s, t).Some?
    ensures HeardAt(Projection(Broker.Run(boot, es)), s, t).value.topic == t
  {
    var w := Broker.Run(boot, es);
    Broker.LiveSubscription(boot, es, s, t);
    var h := w.sessions[s][t];
    MessageFromLog(h.past, h.receiver.next, w.reg.wires[h.receiver.wire], Broker.PublishesTo(es, t), Retained(boot, t));
    PublishesTopic(es, t);
  }

  // The deliveries of a subscription are what it got.

  /** What one event adds to what session `s` got from its subscription to `t`. */
  lemma GotStep(w: Broker.World, e: Broker.Event, s: nat, t: Topic)
    requires Broker.Holds(w, s, t) && e != Broker.Subscribe(s, t) && e != Broker.Drop(s, t)
    ensures var w' := Broker.Step(w, e);
            && Broker.Holds(w', s, t)
            && w'.sessions[s][t].past.got ==
               w.sessions[s][t].past.got +
               if e == Broker.Receive(s, t) then AsSeq(HeardAt(Projection(w), s, t)) else []
  {
    Broker.SubscriptionStays(w, e, s, t);
  }

  /** What one event adds to what session `s` heard. */
  lemma HeardStep(boot: Registry, es: seq<Broker.Event>, e: Broker.Event, s: nat)
    ensures StoryOf(boot, es + [e], s).heard ==
            StoryOf(boot, es, s).heard +
            if e.Receive? && e.session == s then AsSeq(HeardAt(Projection(Broker.Run(boot, es)), s, e.topic)) else []
  {
    assert (es + [e])[..|es|] == es;
    PlayIsRun(boot, es);
  }

  lemma HeardStepOn(boot: Registry, es: seq<Broker.Event>, e: Broker.Event, s: nat, t: Topic)
    requires Broker.Booted(boot)
    ensures On(StoryOf(boot, es + [e], s).heard, t) ==
            On(StoryOf(boot, es, s).heard, t) +
            if e == Broker.Receive(s, t) then AsSeq(HeardAt(Projection(Broker.Run(boot, es)), s, t)) else []
  {
    HeardStep(boot, es, e, s);
    var o := if e.Receive? && e.session == s then HeardAt(Projection(Broker.Run(boot, es)), s, e.topic) else None;
    if o.Some? { HeardTopic(boot, es, s, e.topic); }
    OnAppend(StoryOf(boot, es, s).heard, o, t);
  }

  /** Heard and got grow alike. */
  lemma HeardMore(boot: Registry, es: seq<Broker.Event>, e: Broker.Event, s: nat, t: Topic, earlier: seq<PublishPacket>)
    requires Broker.Booted(boot) && Broker.Holds(Broker.Run(boot, es), s, t)
    requires e != Broker.Subscribe(s, t) && e != Broker.Drop(s, t)
    requires On(StoryOf(boot, es, s).heard, t) == earlier + Broker.Run(boot, es).sessions[s][t].past.got
    ensures Broker.Holds(Broker.Run(boot, es + [e]), s, t)
    ensures On(StoryOf(boot, es + [e], s).heard, t) == earlier + Broker.Run(boot, es + [e]).sessions[s][t].past.got
  {
    var w := Broker.Run(boot, es);
    assert (es + [e])[..|es|] == es;
    HeardStepOn(boot, es, e, s, t);
    GotStep(w, e, s, t);
    Reassociate(earlier, w.sessions[s][t].past.got,
                if e == Broker.Receive(s, t) then AsSeq(HeardAt(Projection(w), s, t)) else []);
  }

  /**
   What a session heard on a topic since it subscribed at event `k` is exactly what its subscription got
   in the run of the broker.
   */
  lemma {:induction false} GotIsHeard(boot: Registry, es: seq<Broker.Event>, k: nat, s: nat, t: Topic)
    requires Broker.Booted(boot) && k < |es| && es[k] == Broker.Subscribe(s, t)
    requires s in Broker.Run(boot, es[..k]).sessions && Broker.Undisturbed(es, k, s, t)
    ensures Broker.Holds(Broker.Run(boot, es), s, t)
    ensures On(StoryOf(boot, es, s).heard, t) ==
            On(StoryOf(boot, es[..k], s).heard, t) + Broker.Run(boot, es).sessions[s][t].past.got
  {
    var init, last := es[..|es| - 1], es[|es| - 1];
    assert es == init + [last];
    if k < |init| {
      assert init[..k] == es[..k];
      assert Broker.Undisturbed(init, k, s, t);
      GotIsHeard(boot, init, k, s, t);
      HeardMore(boot, init, last, s, t, On(StoryOf(boot, es[..k], s).heard, t));
    } else {
      assert init == es[..k];
      HeardStepOn(boot, init, last, s, t);
    }
  }

  /** A subscription's greeting is what the session was greeted with. */
  lemma GreetingIsGreeted(boot: Registry, es: seq<Broker.Event>, s: nat, t: Topic)
    requires Broker.Booted(boot) && s in Broker.Run(boot, es).sessions
    ensures var w := Broker.Run(boot, es + [Broker.Subscribe(s, t)]);
            && Broker.Holds(w, s, t)
            && StoryOf(boot, es + [Broker.Subscribe(s, t)], s).greeted ==
               StoryOf(boot, es, s).greeted + AsSeq(w.sessions[s][t].past.greeting)
  {
    var w := Broker.Run(boot, es);
    assert (es + [Broker.Subscribe(s, t)])[..|es|] == es;
    PlayIsRun(boot, es);
    Broker.RunKeepsInv(boot, es);
    SubscribeOneRetained(w.reg, ReceiversOf(w.sessions[s]), t, t);
    SubscribeIsStep(w, s, t);
  }

  // What the event loop greets with.

  /** The greeting due for event `k`, if it is a subscription of session `s`: the latest retained publish before it. */
  ghost function DueAt(boot: Registry, es: seq<Broker.Event>, k: nat, s: nat): seq<PublishPacket>
    requires k < |es|
  {
    if es[k].Subscribe? && es[k].session == s && s in Broker.Run(boot, es[..k]).sessions then
      AsSeq(Broker.LastRetained(Broker.PublishesTo(es[..k], es[k].topic), Retained(boot, es[k].topic)))
    else []
  }

  /** The greetings due between two points of a run. */
  ghost function Due(boot: Registry, es: seq<Broker.Event>, start: nat, end: nat, s: nat): seq<PublishPacket>
    requires start <= end <= |es|
  {
    Concat(seq(end - start, i requires 0 <= i < end - start => DueAt(boot, es, start + i, s)))
  }

  /** What session `s` was greeted with before point `k` of a run. */
  ghost function Greeted(boot: Registry, es: seq<Broker.Event>, k: nat, s: nat): seq<PublishPacket>
    requires k <= |es|
  {
    StoryOf(boot, es[..k], s).greeted
  }

  lemma GreetedNext(boot: Registry, es: seq<Broker.Event>, k: nat, s: nat)
    requires Broker.Booted(boot) && k < |es|
    ensures Greeted(boot, es, k + 1, s) == Greeted(boot, es, k, s) + DueAt(boot, es, k, s)
  {
    assert es[..k + 1][..k] == es[..k];
    PlayIsRun(boot, es[..k]);
    if es[k].Subscribe? { Broker.RetainedIsFold(boot, es[..k], es[k].topic); }
  }

  lemma GreetedIsDue(boot: Registry, es: seq<Broker.Event>, start: nat, end: nat, s: nat)
    requires Broker.Booted(boot) && start <= end <= |es|
    ensures Greeted(boot, es, end, s) == Greeted(boot, es, start, s) + Due(boot, es, start, end, s)
  {
    var n := end - start;
    var states := seq(n + 1, i requires 0 <= i <= n => Greeted(boot, es, start + i, s));
    var steps := seq(n, i requires 0 <= i < n => DueAt(boot, es, start + i, s));
    forall i | 0 <= i < n ensures states[i + 1] == states[i] + steps[i] {
      GreetedNext(boot, es, start + i, s);
      assert start + (i + 1) == start + i + 1;
    }
    Accumulates(states, steps);
    assert states[0] == Greeted(boot, es, start, s) && states[n] == Greeted(boot, es, end, s);
  }

  lemma SameSuffix<T>(x: seq<T>, y: seq<T>, z: seq<T>)
    requires x + y == x + z
    ensures y == z
  {
    assert y == (x + y)[|x|..] && z == (x + z)[|x|..];
  }

  lemma AnswerIsGreeted(boot: Registry, es: seq<Broker.Event>, me: nat, e: Event, input: Input,
                        will: Option<PublishPacket>, span: Span, more: bool)
    requires AnswersOne(boot, es, me, e, input, will, span, more)
    ensures Greeted(boot, es, span.to, me) == Greeted(boot, es, span.from, me) + GreetingsOf(input)
  {
    var x, y, x', y' :|
      && Chronicle(boot, es[..span.from], x, y, me) && Chronicle(boot, es[..span.to], x', y', me)
      && me in x.held && Fits(e, input, x.held[me], x.reg.wires) && Grows(y, y', e, input, will, me, more);
    ChronicleIs(boot, es[..span.from], x, y, me);
    ChronicleIs(boot, es[..span.to], x', y', me);
  }

  /**
   The greeting half of the cut, for every single SUBSCRIBE: input `j` is greeted, subscription by subscription, with
   exactly the latest retained publish before that subscription in the run.
   */
  lemma {:induction false} GreetsTheLatest(boot: Registry, es: seq<Broker.Event>, me: nat, own: seq<Event>,
                                           ins: seq<Input>, at: seq<Span>, more: bool, j: nat)
    requires Broker.Booted(boot) && AnswersAt(boot, es, me, own, ins, at, more) && j < |ins|
    ensures at[j].from <= at[j].to <= |es| && GreetingsOf(ins[j]) == Due(boot, es, at[j].from, at[j].to, me)
  {
    assert AnswersTo(boot, es, me, own, ins, at, j, more);
    AnswerIsGreeted(boot, es, me, own[j], ins[j], Acknowledgements.LatestWill(ins[..j]), at[j], more || j < |ins| - 1);
    GreetedIsDue(boot, es, at[j].from, at[j].to, me);
    SameSuffix(Greeted(boot, es, at[j].from, me), GreetingsOf(ins[j]), Due(boot, es, at[j].from, at[j].to, me));
  }

  // What the event loop delivers.

  /** All deliveries on a topic so far. */
  ghost function Deliveries(boot: Registry, before: seq<Broker.Event>, me: nat, ins: seq<Input>, t: Topic)
    : seq<PublishPacket>
  {
    On(StoryOf(boot, before, me).heard + Flat(ins, DeliveryOf), t)
  }

  /**
   The deliveries of the loop on a topic since the session subscribed to it are what the subscription got: an
   in-order, duplicate-free part of the topic's publishes since then.
   */
  lemma {:induction false} DeliversInOrder(boot: Registry, before: seq<Broker.Event>, es: seq<Broker.Event>, me: nat,
                                           d: Story, schedule: seq<Event>, ins: seq<Input>, more: bool, k: nat,
                                           t: Topic)
    requires Recorded(boot, before, es, me, d, schedule, ins, more) && k < |es| && es[k] == Broker.Subscribe(me, t)
    requires me in Broker.Run(boot, es[..k]).sessions && Broker.Undisturbed(es, k, me, t)
    ensures Broker.Holds(Broker.Run(boot, es), me, t)
    ensures var w := Broker.Run(boot, es);
            var h := w.sessions[me][t];
            && Deliveries(boot, before, me, ins, t) == On(StoryOf(boot, es[..k], me).heard, t) + h.past.got
            && h.past.since == |Broker.PublishesTo(es[..k], t)|
            && h.receiver.wire < |w.reg.wires|
            && Broker.DeliversInOrder(h.past, h.receiver.next, w.reg.wires[h.receiver.wire], Broker.PublishesTo(es, t))
  {
    GotIsHeard(boot, es, k, me, t);
    Broker.SubscriptionPersists(boot, es, k, me, t);
    Broker.OrderedDelivery(boot, es, me, t);
  }

  /**
   The cut, for what the loop writes: while no backlog exceeds the channel's capacity, the deliveries on a topic
   since the subscription at event `k`, with what still waits, are exactly the publishes from `k` on.
   */
  lemma {:induction false} DeliversTheLog(boot: Registry, before: seq<Broker.Event>, es: seq<Broker.Event>, me: nat,
                                          d: Story, schedule: seq<Event>, ins: seq<Input>, more: bool, k: nat,
                                           t: Topic)
    requires Recorded(boot, before, es, me, d, schedule, ins, more) && k < |es| && es[k] == Broker.Subscribe(me, t)
    requires me in Broker.Run(boot, es[..k]).sessions && Broker.Undisturbed(es, k, me, t)
    ensures Broker.Holds(Broker.Run(boot, es), me, t)
    ensures var w, log := Broker.Run(boot, es), Broker.PublishesTo(es, t);
            var all, earlier := Deliveries(boot, before, me, ins, t), On(StoryOf(boot, es[..k], me).heard, t);
            var since, x := |Broker.PublishesTo(es[..k], t)|, w.sessions[me][t].receiver;
            && earlier <= all && since <= |log| && x.wire < |w.reg.wires|
            && (WithinCapacity(w, me, t) ==>
                  Messages(all[|earlier|..]) + DrainTrace(w.reg.wires[x.wire], x.next) == Messages(log[since..]))
  {
    DeliversInOrder(boot, before, es, me, d, schedule, ins, more, k, t);
    Broker.SubscribeCut(boot, es, k, me, t);
  }

  // The key order.

  /** An orderly story was orderly at every event. */
  lemma {:induction false} OrderlyAt(boot: Registry, es: seq<Broker.Event>, zs: seq<Shared>, ys: seq<Story>, me: nat,
                                     k: nat, n: nat)
    requires Leads(boot, es, zs, ys, me) && k < n <= |es| && ys[n].orderly && es[k].Receive? && es[k].session == me
    ensures me in zs[k].held && LeastReady(es[k].topic, zs[k].held[me], zs[k].reg.wires)
    decreases n
  {
    assert es[n - 1] in es;
    if k < n - 1 {
      OrderlyAt(boot, es, zs, ys, me, k, n - 1);
    }
  }

  lemma {:induction false} LeastIsFirst(keys: seq<Topic>, m: Receivers, wires: Wires, t: Topic)
    requires Covers(keys, m, wires) && Ascending(keys) && t in keys && LeastReady(t, m, wires)
    ensures FirstReady(keys, m, wires) == Some(t)
  {
    if keys[0] != t {
      assert t in keys[1..];
      LessTotal(keys[0], t);
      LeastIsFirst(keys[1..], m, wires, t);
    }
  }

  /** The keys of a session's receivers in order, all with their wires. */
  ghost predicate Visits(keys: seq<Topic>, x: Shared, me: nat) {
    && me in x.held && Ascending(keys) && Covers(keys, x.held[me], x.reg.wires)
    && forall t :: t in keys <==> t in x.held[me]
  }

  /** A receive in the least ready topic is the first step of serving all. */
  lemma ServeFirst(x: Shared, me: nat, keys: seq<Topic>, t: Topic)
    requires Visits(keys, x, me) && LeastReady(t, x.held[me], x.reg.wires)
    ensures var x', m := Act(x, Broker.Receive(me, t)), x.held[me];
            && Visits(keys, x', me)
            && Serve(keys, m, x.reg.wires) ==
               [(t, Recv(x.reg.wires[m[t].wire], m[t].next).0)] + Serve(keys, x'.held[me], x'.reg.wires)
  {
    LeastIsFirst(keys, x.held[me], x.reg.wires, t);
    TotalShrinks(keys, x.held[me], x.reg.wires, t);
  }

  /** The states `xs` follow one another by receives from the topics `ts`, the least ready one each time. */
  ghost predicate Orderly(xs: seq<Shared>, ts: seq<Topic>, me: nat) {
    && |xs| == |ts|
    && (forall j :: 0 <= j < |ts| ==> me in xs[j].held && LeastReady(ts[j], xs[j].held[me], xs[j].reg.wires))
    && (forall j :: 0 <= j < |ts| - 1 ==> xs[j + 1] == Act(xs[j], Broker.Receive(me, ts[j])))
  }

  lemma VisitsNext(x: Shared, x': Shared, me: nat, keys: seq<Topic>, t: Topic)
    requires Visits(keys, x, me) && CanReceive(x, me, t) && x' == Act(x, Broker.Receive(me, t))
    ensures Visits(keys, x', me)
  {
  }

  lemma {:induction false} VisitsAlong(xs: seq<Shared>, ts: seq<Topic>, me: nat, keys: seq<Topic>, i: nat)
    requires Orderly(xs, ts, me) && i < |ts| && Visits(keys, xs[0], me)
    ensures Visits(keys, xs[i], me)
  {
    if i > 0 {
      var j := i - 1;
      VisitsAlong(xs, ts, me, keys, j);
      assert xs[j + 1] == Act(xs[j], Broker.Receive(me, ts[j]));
      VisitsNext(xs[j], xs[j + 1], me, keys, ts[j]);
    }
  }

  /** What is served from state `j` of a run on. */
  ghost function ServedFrom(x: Shared, me: nat, keys: seq<Topic>): seq<(Topic, Received<PublishPacket>)>
    requires Visits(keys, x, me)
  {
    Serve(keys, x.held[me], x.reg.wires)
  }

  lemma ServedNext(x: Shared, x': Shared, me: nat, keys: seq<Topic>, t: Topic)
    requires Visits(keys, x, me) && LeastReady(t, x.held[me], x.reg.wires) && x' == Act(x, Broker.Receive(me, t))
    ensures Visits(keys, x', me) && ServedFrom(x, me, keys) != []
    ensures ServedFrom(x, me, keys)[1..] == ServedFrom(x', me, keys)
    ensures CanReceive(x, me, t)
    ensures ServedFrom(x, me, keys)[0] == (t, Recv(x.reg.wires[x.held[me][t].wire], x.held[me][t].next).0)
  {
    ServeFirst(x, me, keys, t);
  }

  /** Of lists that each are the tail of the one before, the heads make up the first. */
  lemma {:induction false} HeadsAlong<T>(lists: seq<seq<T>>)
    requires lists != [] && lists[|lists| - 1] != []
    requires forall j :: 0 <= j < |lists| - 1 ==> lists[j] != [] && lists[j][1..] == lists[j + 1]
    ensures |lists[0]| >= |lists| && lists[0][|lists| - 1] == lists[|lists| - 1][0]
  {
    if |lists| > 1 {
      HeadsAlong(lists[1..]);
      assert lists[0][1..] == lists[0 + 1];
    }
  }

  /** Receive number `i` is number `i` of serving all topics. */
  lemma ServesAlong(xs: seq<Shared>, ts: seq<Topic>, me: nat, keys: seq<Topic>, i: nat)
    requires Orderly(xs, ts, me) && i < |ts| && Visits(keys, xs[0], me)
    ensures var x, served := xs[i], ServedFrom(xs[0], me, keys);
            && CanReceive(x, me, ts[i]) && i < |served|
            && served[i] == (ts[i], Recv(x.reg.wires[x.held[me][ts[i]].wire], x.held[me][ts[i]].next).0)
  {
    forall j | 0 <= j <= i ensures Visits(keys, xs[j], me) { VisitsAlong(xs, ts, me, keys, j); }
    var lists := seq(i + 1, j requires 0 <= j <= i => ServedFrom(xs[j], me, keys));
    forall j | 0 <= j < i ensures lists[j] != [] && lists[j][1..] == lists[j + 1] {
      ServedNext(xs[j], xs[j + 1], me, keys, ts[j]);
    }
    ServedNext(xs[i], Act(xs[i], Broker.Receive(me, ts[i])), me, keys, ts[i]);
    HeadsAlong(lists);
  }

  lemma DrainsAlong(xs: seq<Shared>, ts: seq<Topic>, me: nat, keys: seq<Topic>, i: nat)
    requires Orderly(xs, ts, me) && i < |ts| && Visits(keys, xs[0], me)
    ensures var x, drained := xs[i], DrainedInOrder(keys, xs[0].held[me], xs[0].reg.wires);
            && CanReceive(x, me, ts[i]) && i < |drained|
            && drained[i] == (ts[i], Recv(x.reg.wires[x.held[me][ts[i]].wire], x.held[me][ts[i]].next).0)
  {
    ServesAlong(xs, ts, me, keys, i);
    ServeInKeyOrder(keys, xs[0].held[me], xs[0].reg.wires);
  }

  /** From event `k` on the session only receives. */
  ghost predicate OnlyReceives(es: seq<Broker.Event>, k: nat, me: nat) {
    forall j :: k <= j < |es| ==> es[j].Receive? && es[j].session == me
  }

  lemma RunIsOrderly(boot: Registry, es: seq<Broker.Event>, zs: seq<Shared>, ys: seq<Story>, k: nat, me: nat)
    returns (ts: seq<Topic>)
    requires Leads(boot, es, zs, ys, me) && ys[|es|].orderly && k <= |es| && OnlyReceives(es, k, me)
    ensures Orderly(zs[k..|es|], ts, me) && |ts| == |es| - k
    ensures forall j :: 0 <= j < |ts| ==> es[k + j] == Broker.Receive(me, ts[j])
  {
    ts := seq(|es| - k, j requires 0 <= j < |es| - k => if es[k + j].Receive? then es[k + j].topic else "");
    var xs := zs[k..|es|];
    forall j | 0 <= j < |ts|
      ensures me in xs[j].held && LeastReady(ts[j], xs[j].held[me], xs[j].reg.wires)
      ensures es[k + j] == Broker.Receive(me, ts[j]) && zs[k + j + 1] == Act(zs[k + j], es[k + j])
    {
      OrderlyAt(boot, es, zs, ys, me, k + j, |es|);
    }
    forall j | 0 <= j < |ts| - 1 ensures xs[j + 1] == Act(xs[j], Broker.Receive(me, ts[j])) {
      assert xs[j + 1] == zs[k + j + 1];
    }
  }

  /**
   While a session only receives, from event `k` on, it receives what draining its topics one after the other in
   key order yields, message by message; `zs` are the states of the run.
   */
  lemma {:induction false} ReceivesInKeyOrder(boot: Registry, es: seq<Broker.Event>, zs: seq<Shared>, ys: seq<Story>,
                                              k: nat, me: nat, keys: seq<Topic>, i: nat)
    requires Leads(boot, es, zs, ys, me) && ys[|es|].orderly && k <= i < |es| && OnlyReceives(es, k, me)
    requires Visits(keys, zs[k], me)
    ensures var t, drained := es[i].topic, DrainedInOrder(keys, zs[k].held[me], zs[k].reg.wires);
            && CanReceive(zs[i], me, t) && i - k < |drained|
            && drained[i - k] == (t, Recv(zs[i].reg.wires[zs[i].held[me][t].wire], zs[i].held[me][t].next).0)
  {
    var ts := RunIsOrderly(boot, es, zs, ys, k, me);
    var xs := zs[k..|es|];
    assert xs[0] == zs[k] && xs[i - k] == zs[i] && es[k + (i - k)] == Broker.Receive(me, ts[i - k]);
    DrainsAlong(xs, ts, me, keys, i - k);
  }
}
