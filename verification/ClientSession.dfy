/**
 The client session as the program runs it: an object whose handlers update its receivers, will and
 outgoing list in place, call the shared registry and write to the stream. Each handler is proved
 against the session state machine, and what it does to the registry and the receivers against a run
 of the broker, in which the other sessions and the bus take their steps in between.
 */
module ClientSession {
  import opened Prelude
  import opened Packets
  import opened Broadcast
  import opened Topics
  import opened Order
  import opened Scheduling
  import opened Session
  import opened Cuts
  import opened Subscriptions
  import opened Sharing
  import opened Turns
  import Acknowledgements
  import Broker

  /** The other sessions and the bus, which act on the same registry. */
  class Peers {
    const topics: Topics
    var held: map<nat, Receivers>

    constructor (topics: Topics)
      ensures this.topics == topics && held == map[]
    {
      this.topics := topics;
      held := map[];
    }

    method Act(e: Broker.Event)
      requires topics.Valid()
      modifies this, topics
      ensures topics.Valid()
      ensures Shared(topics.State(), held) == Sharing.Act(Shared(old(topics.State()), old(held)), e)
    {
      match e {
        case Open(s) =>
          if s !in held { held := held[s := map[]]; }
        case Close(s) =>
          if s in held && held[s] == map[] { held := held - {s}; }
        case Subscribe(s, t) =>
          if s in held {
            var receiver := topics.Subscribe(t);
            if t in held[s] { topics.Drop(held[s][t]); }
            held := held[s := held[s][t := receiver.value]];
          }
        case Drop(s, t) =>
          if s in held && t in held[s] {
            topics.Drop(held[s][t]);
            held := held[s := held[s] - {t}];
          } else if s in held {
            assert held[s := held[s]] == held;
          }
        case Publish(_, p) =>
          var _ := topics.Publish(p);
        case Receive(s, t) =>
          if s in held && t in held[s] && held[s][t].wire < |topics.wires| {
            held := held[s := Served(t, held[s], topics.wires)];
          }
      }
    }
  }

  class Client {
    var receivers: Receivers
    var will: Option<PublishPacket>
    var outgoing: seq<Outgoing>
    const topics: Topics
    const peers: Peers
    const me: nat
    /** The number of entries ever admitted to the outgoing list, and all effects so far. */
    var admitted: nat
    var trace: seq<Action>
    /** How many more stream operations will succeed. */
    var budget: nat
    /** The run of the broker so far: what the registry was loaded with, and all events since. */
    ghost const boot: Registry
    ghost var events: seq<Broker.Event>
    /** This session's part in it. */
    ghost var tale: Story

    constructor (topics: Topics, peers: Peers, me: nat, budget: nat, ghost boot: Registry,
                 ghost before: seq<Broker.Event>)
      requires topics.Valid() && peers.topics == topics && me !in peers.held && Broker.Booted(boot)
      requires Play(boot, before) == Shared(topics.State(), peers.held)
      ensures this.topics == topics && this.peers == peers && this.me == me
      ensures this.budget == budget && this.boot == boot
      ensures Valid() && receivers == map[] && View() == INIT && events == before + [Broker.Open(me)]
    {
      ghost var told := StoryOf(boot, before, me);
      ChronicleIs(boot, before, Shared(topics.State(), peers.held), told, me);
      ChronicleSnoc(boot, before, Shared(topics.State(), peers.held), told, me, Broker.Open(me));
      this.topics, this.peers, this.me, this.budget := topics, peers, me, budget;
      receivers, will, outgoing, admitted, trace := map[], None, [], 0, [];
      this.boot, events := boot, before + [Broker.Open(me)];
      tale := Plus(told, Chapter(Shared(topics.State(), peers.held), Broker.Open(me), me));
    }

    function View(): Session
      reads this
    {
      Session(will, outgoing, admitted, trace, None)
    }

    ghost predicate WellFormed()
      reads this, topics, peers
    {
      Wired(topics.State(), receivers) && peers.topics == topics && me !in peers.held && Broker.Booted(boot)
    }

    ghost function State(): Shared
      reads this, topics, peers
    {
      Shared(topics.State(), peers.held[me := receivers])
    }

    /** The registry, all receivers and the session's story are what the run says. */
    ghost predicate Valid()
      reads this, topics, peers
    {
      WellFormed() && Chronicle(boot, events, State(), tale, me)
    }

    /** The effects of a handler: all of `actions`, or those before the stream operation that failed. */
    twostate predicate Performed(actions: seq<Action>, success: bool)
      reads this
    {
      && trace == old(trace) + Cut(actions, old(budget))
      && (success <==> Ios(actions) <= old(budget))
      && (success ==> budget == old(budget) - Ios(actions))
    }

    /** The session reacted to one input as the state machine says, up to a failing stream operation. */
    twostate predicate Reacted(input: Input, more: bool)
      reads this
    {
      && trace == old(trace) + Cut(Reaction(old(View()), input), old(budget))
      && (more <==> EndingOf(old(View()), input).None? && Ios(Reaction(old(View()), input)) <= old(budget))
      && (more ==>
            View() == Step(old(View()), input) && budget == old(budget) - Ios(Reaction(old(View()), input)))
    }

    /** The session has executed the inputs `ins`, with `all` stream operations to begin with. */
    ghost predicate Executed(ins: seq<Input>, all: nat, more: bool)
      reads this
    {
      && Ran(ins) && trace == Cut(Run(ins).trace, all) && OnlyLastCut(ins, all)
      && if more then View() == Run(ins) && budget + Ios(trace) == all else Over(ins, all)
    }

    /** The run goes on by one event, which has just happened in state `x`. */
    ghost method Note(x: Shared, e: Broker.Event)
      requires WellFormed() && Chronicle(boot, events, x, tale, me) && State() == Act(x, e)
      modifies this`events, this`tale
      ensures Valid() && events == old(events) + [e] && tale == Plus(old(tale), Chapter(x, e, me))
    {
      ChronicleSnoc(boot, events, x, tale, me, e);
      events, tale := events + [e], Plus(tale, Chapter(x, e, me));
    }

    /** Others act: every event that is not this session's own. */
    method Meanwhile(es: seq<Broker.Event>)
      requires Valid()
      modifies this`events, this`tale, peers, topics
      ensures Valid() && old(events) <= events
      ensures tale == Plus(old(tale), UNTOLD.(others := Foreign(es, me)))
    {
      PlusUntold(tale);
      for i := 0 to |es|
        invariant Valid() && old(events) <= events
        invariant tale == Plus(old(tale), UNTOLD.(others := Foreign(es[..i], me)))
      {
        FlatSnoc(es, i, ForeignOf(me));
        if !IsOf(es[i], me) {
          PlusAssociates(old(tale), UNTOLD.(others := Foreign(es[..i], me)), UNTOLD.(others := [es[i]]));
          OthersAct(es[i]);
        }
      }
      assert es[..|es|] == es;
    }

    method OthersAct(e: Broker.Event)
      requires Valid() && !IsOf(e, me)
      modifies this`events, this`tale, peers, topics
      ensures Valid() && events == old(events) + [e] && tale == Plus(old(tale), UNTOLD.(others := [e]))
    {
      ghost var x, before := Shared(topics.State(), peers.held), State();
      ActFrame(x, me, receivers, e);
      ActKeepsWires(x, e);
      peers.Act(e);
      Note(before, e);
    }

    method WriteToStream(reply: Reply) returns (success: bool)
      modifies this`trace, this`budget
      ensures success <==> old(budget) > 0
      ensures trace == if success then old(trace) + [Write(reply)] else old(trace)
      ensures budget == if success then old(budget) - 1 else 0
    {
      if budget == 0 {
        return false;
      }
      budget := budget - 1;
      trace := trace + [Write(reply)];
      success := true;
    }

    /** The registry applies a publish of this session. */
    method Apply(p: PublishPacket) returns (published: Result<(), Error>)
      requires Valid()
      modifies this`events, this`tale, topics
      ensures Valid() && events == old(events) + [Broker.Publish(Some(me), p)] && published == Ok(())
      ensures tale == Plus(old(tale), UNTOLD.(published := [p]))
    {
      ghost var before := State();
      ActKeepsWires(before, Broker.Publish(Some(me), p));
      published := topics.Publish(p);
      Note(before, Broker.Publish(Some(me), p));
    }

    /** Registry, Redis queue, acknowledgement; false also when the missing packet id panics. */
    method HandlePublish(p: PublishPacket, source: Source) returns (success: bool)
      requires Valid()
      modifies this`trace, this`budget, this`events, this`tale, topics
      ensures Valid() && events == old(events) + [Broker.Publish(Some(me), p)]
      ensures tale == Plus(old(tale), UNTOLD.(published := [p]))
      ensures Performed(PublishReaction(p, source), success || AckPanics(p))
      ensures AckPanics(p) ==> !success
      ensures trace == old(trace) + [Action.Apply(p, source), Forward(p)] +
                       if p.qos.AtLeastOnce? && p.packetId.Some? && old(budget) > 0
                       then [Write(PublishAck(p.packetId.value, Success))] else []
      ensures success <==> !p.qos.AtLeastOnce? || (p.packetId.Some? && old(budget) > 0)
    {
      var reason := UnspecifiedError;
      var published := Apply(p);
      if published.Ok? {
        reason := Success;
      }
      ghost var head := [Action.Apply(p, source), Forward(p)];
      trace := trace + [Action.Apply(p, source)];
      trace := trace + [Forward(p)];
      assert trace == old(trace) + head;
      CutPublish(p, source, old(budget));
      if p.qos.AtLeastOnce? {
        if p.packetId.None? {
          return false;
        }
        Reassociate(old(trace), head, [Write(PublishAck(p.packetId.value, reason))]);
        success := WriteToStream(PublishAck(p.packetId.value, reason));
      } else {
        success := true;
      }
    }

    /** Publishes the stored will, if there is one. */
    method PublishWill() returns (success: bool)
      requires Valid()
      modifies this`trace, this`budget, this`events, this`tale, topics
      ensures Valid() && old(events) <= events
      ensures tale == Plus(old(tale), UNTOLD.(published := AsSeq(old(will))))
      ensures Performed(WillReaction(old(will)), success || WillPanics(old(will)))
      ensures WillPanics(old(will)) ==> !success
    {
      if will.None? {
        PlusUntold(tale);
        return true;
      }
      success := HandlePublish(will.value, FromWill);
    }

    /** Keeps the entries that satisfy `keep`, in order. */
    method RetainOutgoing(keep: Outgoing -> bool)
      modifies this`outgoing
      ensures outgoing == Retain(old(outgoing), keep)
    {
      var kept := [];
      for i := 0 to |outgoing|
        invariant outgoing == old(outgoing) && kept == Retain(outgoing[..i], keep)
      {
        assert outgoing[..i + 1][..i] == outgoing[..i];
        if keep(outgoing[i]) {
          kept := kept + [outgoing[i]];
        }
      }
      assert outgoing[..|outgoing|] == outgoing;
      outgoing := kept;
    }

    /** Counts entry `i` down and writes it again unless it has expired. */
    method TickEntry(i: nat) returns (success: bool)
      requires i < |outgoing|
      modifies this`trace, this`budget, this`outgoing
      ensures outgoing == old(outgoing)[i := old(outgoing)[i].(counter := Decrement(old(outgoing)[i].counter))]
      ensures success <==> outgoing[i].counter == 0 || old(budget) > 0
      ensures var due, entry := success && outgoing[i].counter != 0, outgoing[i];
              && trace == old(trace) + (if due then [Write(PublishOut(entry.packet, Some(entry.serial)))] else [])
              && budget == old(budget) - if due then 1 else 0
    {
      outgoing := outgoing[i := outgoing[i].(counter := Decrement(outgoing[i].counter))];
      if outgoing[i].counter == 0 {
        return true;
      }
      success := WriteToStream(PublishOut(outgoing[i].packet, Some(outgoing[i].serial)));
    }

    /** Counts all entries down in place and writes those that have not expired. */
    method ResendAll() returns (success: bool)
      modifies this`trace, this`budget, this`outgoing
      ensures var due := Resends(Decremented(old(outgoing)));
              && (success <==> |due| <= old(budget))
              && trace == old(trace) + (if success then due else due[..old(budget)])
              && (success ==> budget == old(budget) - |due|)
      ensures success ==> outgoing == Decremented(old(outgoing))
    {
      ghost var d, done := Decremented(outgoing), [];
      var i := 0;
      while i < |outgoing|
        invariant 0 <= i <= |outgoing| == |d|
        invariant forall j :: 0 <= j < |d| ==> outgoing[j] == if j < i then d[j] else old(outgoing)[j]
        invariant done == Resends(d[..i])
        invariant trace == old(trace) + done && budget + |done| == old(budget)
      {
        ResendsStep(d, i);
        var written := TickEntry(i);
        if !written {
          ResendsStop(d, i);
          return false;
        }
        if d[i].counter != 0 {
          Reassociate(old(trace), done, [Write(PublishOut(d[i].packet, Some(d[i].serial)))]);
          done := done + [Write(PublishOut(d[i].packet, Some(d[i].serial)))];
        }
        i := i + 1;
      }
      assert d[..i] == d;
      success := true;
    }

    /** One retransmission tick: live entries are written again, and afterwards the dead ones are dropped. */
    method HandleTick() returns (success: bool)
      modifies this`trace, this`budget, this`outgoing
      ensures Reacted(Tick, success)
    {
      ResendsAreIo(Decremented(outgoing));
      CutAllIo(Resends(Decremented(outgoing)), budget);
      success := ResendAll();
      if success {
        RetainOutgoing(Ticking);
      }
    }

    method HandleConnect(newWill: Option<PublishPacket>) returns (success: bool)
      modifies this`will, this`trace, this`budget
      ensures Reacted(Connect(newWill), success)
    {
      if newWill.Some? {
        will := newWill;
      }
      CutAllIo([Write(ConnectAck)], budget);
      success := WriteToStream(ConnectAck);
    }

    /** A DISCONNECT always ends the session; with reason 0x04 the will is published first. */
    method HandleDisconnect(withWill: bool) returns (success: bool)
      requires Valid()
      modifies this`trace, this`budget, this`events, this`tale, topics
      ensures Valid() && old(events) <= events && !success
      ensures tale == Plus(old(tale), UNTOLD.(published := if withWill then AsSeq(old(will)) else []))
      ensures Reacted(Disconnect(withWill), success)
    {
      assert trace + [] == trace;
      PlusUntold(tale);
      if withWill {
        var _ := PublishWill();
      }
      success := false;
    }

    method ShutdownStream() returns (success: bool)
      modifies this`trace, this`budget
      ensures success <==> old(budget) > 0
      ensures trace == if success then old(trace) + [Shutdown] else old(trace)
      ensures budget == if success then old(budget) - 1 else 0
    {
      if budget == 0 {
        return false;
      }
      budget := budget - 1;
      trace := trace + [Shutdown];
      success := true;
    }

    method WillAndShutdown() returns (success: bool)
      requires Valid()
      modifies this`trace, this`budget, this`events, this`tale, topics
      ensures Valid() && old(events) <= events
      ensures tale == Plus(old(tale), UNTOLD.(published := AsSeq(old(will))))
      ensures var a := WillReaction(old(will));
              && (success <==> !WillPanics(old(will)) && Ios(a) < old(budget))
              && trace == old(trace) + (if success then a + [Shutdown] else Cut(a, old(budget)))
              && (success ==> budget == old(budget) - Ios(a) - 1)
    {
      Reassociate(trace, WillReaction(will), [Shutdown]);
      success := PublishWill();
      if success {
        assert trace == old(trace) + WillReaction(will);
        success := ShutdownStream();
      }
    }

    /** The idle branch: the will is published and the stream shut down, but the loop goes on. */
    method HandleIdleTimeout() returns (success: bool)
      requires Valid()
      modifies this`trace, this`budget, this`events, this`tale, topics
      ensures Valid() && old(events) <= events
      ensures tale == Plus(old(tale), UNTOLD.(published := AsSeq(old(will))))
      ensures Reacted(IdleTimeout, success)
    {
      CutIdle(View(), budget);
      success := WillAndShutdown();
    }

    /** The registry and the receiver map take a subscription. */
    method Subscribe(name: Topic)
      requires Valid()
      modifies this`receivers, this`events, this`tale, topics
      ensures Valid() && events == old(events) + [Broker.Subscribe(me, name)]
      ensures receivers.Keys == old(receivers).Keys + {name}
      ensures Retained(topics.State(), name) == Retained(old(topics.State()), name)
      ensures tale == Plus(old(tale), UNTOLD.(greeted := AsSeq(Retained(old(topics.State()), name)),
                                                  asked := [Broker.Subscribe(me, name)]))
    {
      ghost var before := State();
      SubscribeOneOk(topics.State(), receivers, name, name);
      ActOwn(topics.State(), peers.held, me, receivers, name);
      var receiver := topics.Subscribe(name);
      if name in receivers {
        topics.Drop(receivers[name]);
      }
      receivers := receivers[name := receiver.value];
      Note(before, Broker.Subscribe(me, name));
    }

    /** One concrete filter: subscribe, replace the receiver and greet with the retained message, under one lock. */
    method SubscribeFilter(name: Topic) returns (greeting: Option<PublishPacket>, success: bool)
      requires Valid()
      modifies this`receivers, this`trace, this`budget, this`events, this`tale, topics
      ensures Valid() && events == old(events) + [Broker.Subscribe(me, name)]
      ensures receivers.Keys == old(receivers).Keys + {name}
      ensures greeting == Retained(old(topics.State()), name)
      ensures tale == Plus(old(tale), UNTOLD.(greeted := AsSeq(greeting), asked := [Broker.Subscribe(me, name)]))
      ensures success <==> |AsSeq(greeting)| <= old(budget)
      ensures trace == if success then old(trace) + Greet(AsSeq(greeting)) else old(trace)
      ensures success ==> budget == old(budget) - |AsSeq(greeting)|
    {
      Subscribe(name);
      greeting := topics.GetRetainedMessage(name);
      if greeting.None? {
        assert trace + Greet([]) == trace;
        return greeting, true;
      }
      assert Greet(AsSeq(greeting)) == [Write(PublishOut(greeting.value, None))];
      success := WriteToStream(PublishOut(greeting.value, None));
    }

    /** One filter of any kind: only a concrete one is subscribed. */
    method TakeFilter(f: TopicFilter) returns (greeting: Option<PublishPacket>, success: bool)
      requires Valid()
      modifies this`receivers, this`trace, this`budget, this`events, this`tale, topics
      ensures Valid() && old(events) <= events
      ensures receivers.Keys == old(receivers).Keys + if f.Concrete? then {f.name} else {}
      ensures greeting == if f.Concrete? then Retained(old(topics.State()), f.name) else None
      ensures tale == Plus(old(tale), UNTOLD.(greeted := AsSeq(greeting), asked := SubscribeAsk(me)(f)))
      ensures success <==> |AsSeq(greeting)| <= old(budget)
      ensures trace == if success then old(trace) + Greet(AsSeq(greeting)) else old(trace)
      ensures success ==> budget == old(budget) - |AsSeq(greeting)|
    {
      if !f.Concrete? {
        PlusUntold(tale);
        assert trace + Greet([]) == trace;
        return None, true;
      }
      greeting, success := SubscribeFilter(f.name);
    }

    /** Others act, then one filter is taken. */
    method NextFilter(f: TopicFilter, slot: seq<Broker.Event>) returns (greeting: Option<PublishPacket>, success: bool)
      requires Valid()
      modifies this`receivers, this`trace, this`budget, this`events, this`tale, peers, topics
      ensures Valid() && old(events) <= events
      ensures receivers.Keys == old(receivers).Keys + if f.Concrete? then {f.name} else {}
      ensures tale == Plus(Plus(old(tale), UNTOLD.(others := Foreign(slot, me))),
                           UNTOLD.(greeted := AsSeq(greeting), asked := SubscribeAsk(me)(f)))
      ensures success <==> |AsSeq(greeting)| <= old(budget)
      ensures trace == if success then old(trace) + Greet(AsSeq(greeting)) else old(trace)
      ensures success ==> budget == old(budget) - |AsSeq(greeting)|
    {
      Meanwhile(slot);
      greeting, success := TakeFilter(f);
    }

    /** The filters of a SUBSCRIBE, one critical section each; others act in between. `n` filters are handled. */
    method SubscribeFilters(filters: seq<TopicFilter>, between: seq<seq<Broker.Event>>)
      returns (granted: seq<SubscribeCode>, greetings: seq<PublishPacket>, success: bool, ghost n: nat)
      requires Valid()
      modifies this`receivers, this`trace, this`budget, this`events, this`tale, peers, topics
      ensures Valid() && old(events) <= events && n <= |filters| && granted == Grants(filters[..n])
      ensures receivers.Keys == old(receivers).Keys + ConcreteNames(filters[..n])
      ensures tale == Plus(old(tale), FilterTold(greetings, filters, between, n, me, SubscribeAsk(me)))
      ensures success <==> |greetings| <= old(budget)
      ensures trace == old(trace) + (if success then Greet(greetings) else Greet(greetings)[..old(budget)])
      ensures success ==> n == |filters| && budget == old(budget) - |greetings|
    {
      granted, greetings, n := [], [], 0;
      PlusUntold(tale);
      FilterToldNothing(me, filters, between, SubscribeAsk(me));
      ghost var done := [];
      for i := 0 to |filters|
        invariant Valid() && old(events) <= events && n == i
        invariant granted == Grants(filters[..i])
        invariant receivers.Keys == old(receivers).Keys + ConcreteNames(filters[..i])
        invariant tale == Plus(old(tale), FilterTold(greetings, filters, between, i, me, SubscribeAsk(me)))
        invariant done == Greet(greetings) && trace == old(trace) + done && budget + |done| == old(budget)
      {
        FlatSnoc(filters, i, GrantOf);
        NamesGrow(old(receivers).Keys, filters, i);
        granted, n := granted + [GrantFor(filters[i])], i + 1;
        var greeting, written := NextFilter(filters[i], Slot(between, i));
        FilterToldSnoc(old(tale), greetings, filters, between, i, me, SubscribeAsk(me), AsSeq(greeting));
        GreetSnoc(old(trace), greetings, greeting);
        greetings := greetings + AsSeq(greeting);
        if !written {
          return granted, greetings, false, n;
        }
        done := done + Greet(AsSeq(greeting));
      }
      assert filters[..|filters|] == filters;
      success := true;
    }

    /** A SUBSCRIBE: the greetings, then the SUBACK with one code per filter. */
    method HandleSubscribe(id: PacketId, filters: seq<TopicFilter>, between: seq<seq<Broker.Event>>)
      returns (greetings: seq<PublishPacket>, success: bool, ghost n: nat)
      requires Valid()
      modifies this`receivers, this`trace, this`budget, this`events, this`tale, peers, topics
      ensures Valid() && old(events) <= events && n <= |filters| && (success ==> n == |filters|)
      ensures receivers.Keys == old(receivers).Keys + ConcreteNames(filters[..n])
      ensures tale == Plus(old(tale), FilterTold(greetings, filters, between, n, me, SubscribeAsk(me)))
      ensures Reacted(Input.Subscribe(id, greetings, Grants(filters)), success)
    {
      var granted;
      granted, greetings, success, n := SubscribeFilters(filters, between);
      assert success ==> filters[..n] == filters;
      success := AnswerSubscribe(SubscribeAck(id, granted), success, old(View()), old(budget),
                                 Input.Subscribe(id, greetings, Grants(filters)));
    }

    /** The SUBACK after all greetings, if those were written; the packet began in state `s` with `all` left. */
    method AnswerSubscribe(ack: Reply, ready: bool, ghost s: Session, ghost all: nat, ghost input: Input)
      returns (success: bool)
      requires input.Subscribe? && View() == s.(trace := trace)
      requires (ready <==> |input.greetings| <= all) && (ready ==> budget == all - |input.greetings|)
      requires ready ==> ack == SubscribeAck(input.id, input.granted)
      requires trace == s.trace + (if ready then Greet(input.greetings) else Greet(input.greetings)[..all])
      modifies this`trace, this`budget
      ensures success ==> ready
      ensures trace == s.trace + Cut(Reaction(s, input), all)
      ensures success <==> EndingOf(s, input).None? && Ios(Reaction(s, input)) <= all
      ensures success ==> View() == Step(s, input) && budget == all - Ios(Reaction(s, input))
    {
      ghost var due := SubscribeAck(input.id, input.granted);
      SubscribeReaction(s, input);
      CutSubscribe(input.greetings, due, all);
      Reassociate(s.trace, Greet(input.greetings), [Write(due)]);
      success := false;
      if ready {
        success := WriteToStream(ack);
      }
    }

    /** The receiver of one topic is dropped, if there is one. */
    method Unsubscribe(name: Topic) returns (code: UnsubscribeCode)
      requires Valid()
      modifies this`receivers, this`events, this`tale, topics
      ensures Valid() && events == old(events) + [Broker.Drop(me, name)]
      ensures receivers == old(receivers) - {name}
      ensures code == if name in old(receivers) then Unsubscribed else NoSubscriptionExisted
      ensures tale == Plus(old(tale), UNTOLD.(asked := [Broker.Drop(me, name)]))
    {
      ghost var before := State();
      code := NoSubscriptionExisted;
      ActOwn(topics.State(), peers.held, me, receivers, name);
      if name in receivers {
        DroppedValid(topics.State(), receivers[name]);
        topics.Drop(receivers[name]);
        receivers := receivers - {name};
        code := Unsubscribed;
      }
      assert receivers == old(receivers) - {name};
      Note(before, Broker.Drop(me, name));
    }

    method UnsubscribeFilter(f: TopicFilter) returns (code: UnsubscribeCode)
      requires Valid()
      modifies this`receivers, this`events, this`tale, topics
      ensures Valid() && old(events) <= events
      ensures receivers == if f.Concrete? then old(receivers) - {f.name} else old(receivers)
      ensures code == CodeFor(f, old(receivers).Keys)
      ensures tale == Plus(old(tale), UNTOLD.(asked := UnsubscribeAsk(me)(f)))
    {
      if !f.Concrete? {
        PlusUntold(tale);
        return ImplementationSpecificError;
      }
      code := Unsubscribe(f.name);
    }

    /** The filters of an UNSUBSCRIBE: one code each, and the receivers of concrete filters are dropped. */
    method UnsubscribeFilters(filters: seq<TopicFilter>, between: seq<seq<Broker.Event>>)
      returns (removed: seq<UnsubscribeCode>)
      requires Valid()
      modifies this`receivers, this`events, this`tale, peers, topics
      ensures Valid() && old(events) <= events
      ensures RemovalsOk(removed, filters, old(receivers).Keys) && receivers == old(receivers) - ConcreteNames(filters)
      ensures tale == Plus(old(tale), FilterTold([], filters, between, |filters|, me, UnsubscribeAsk(me)))
    {
      removed := [];
      PlusUntold(tale);
      FilterToldNothing(me, filters, between, UnsubscribeAsk(me));
      for i := 0 to |filters|
        invariant Valid() && old(events) <= events
        invariant receivers == old(receivers) - ConcreteNames(filters[..i])
        invariant RemovalsOk(removed, filters[..i], old(receivers).Keys)
        invariant tale == Plus(old(tale), FilterTold([], filters, between, i, me, UnsubscribeAsk(me)))
      {
        GrantsSnoc(filters, i);
        Meanwhile(Slot(between, i));
        var code := UnsubscribeFilter(filters[i]);
        RemovalSnoc(code, filters, i, old(receivers));
        FilterToldSnoc(old(tale), [], filters, between, i, me, UnsubscribeAsk(me), []);
        RemovalsSnoc(removed, code, filters, i, old(receivers).Keys);
        removed := removed + [code];
      }
      assert filters[..|filters|] == filters;
    }

    method HandleUnsubscribe(id: PacketId, filters: seq<TopicFilter>, between: seq<seq<Broker.Event>>)
      returns (removed: seq<UnsubscribeCode>, success: bool)
      requires Valid()
      modifies this`receivers, this`trace, this`budget, this`events, this`tale, peers, topics
      ensures Valid() && old(events) <= events
      ensures RemovalsOk(removed, filters, old(receivers).Keys) && receivers == old(receivers) - ConcreteNames(filters)
      ensures tale == Plus(old(tale), FilterTold([], filters, between, |filters|, me, UnsubscribeAsk(me)))
      ensures Reacted(Input.Unsubscribe(id, removed), success)
    {
      removed := UnsubscribeFilters(filters, between);
      success := AnswerUnsubscribe(id, removed);
    }

    method AnswerUnsubscribe(id: PacketId, removed: seq<UnsubscribeCode>) returns (success: bool)
      modifies this`trace, this`budget
      ensures Reacted(Input.Unsubscribe(id, removed), success)
    {
      CutAllIo([Write(UnsubscribeAck(id, removed))], budget);
      success := WriteToStream(UnsubscribeAck(id, removed));
    }

    /** The receiver future: the least topic with something to receive. */
    method NextReady() returns (ready: Option<Topic>)
      requires Valid()
      ensures ready.None? <==> NoneReady(receivers, topics.wires)
      ensures ready.Some? ==> LeastReady(ready.value, receivers, topics.wires)
    {
      var keys := InOrder(receivers.Keys);
      ready := Poll(keys, receivers, topics.wires);
    }

    /** Receives once from topic `t`. */
    method Receive(t: Topic) returns (r: Received<PublishPacket>)
      requires Valid() && LeastReady(t, receivers, topics.wires)
      modifies this`receivers, this`events, this`tale
      ensures Valid() && events == old(events) + [Broker.Receive(me, t)]
      ensures receivers == Served(t, old(receivers), topics.wires)
      ensures r == Recv(topics.wires[old(receivers)[t].wire], old(receivers)[t].next).0
      ensures tale == Plus(old(tale), UNTOLD.(heard := AsSeq(MessageOf(r))))
    {
      ghost var before := State();
      ActOwn(topics.State(), peers.held, me, receivers, t);
      var x := receivers[t];
      var (received, next) := Recv(topics.wires[x.wire], x.next);
      r := received;
      receivers := receivers[t := x.(next := next)];
      Note(before, Broker.Receive(me, t));
    }

    /** Receives once from the least ready topic. */
    method TakeReady() returns (input: Input)
      requires Valid()
      modifies this`receivers, this`events, this`tale
      ensures Valid() && old(events) <= events
      ensures input.Delivered? || input.Skipped?
      ensures ChannelFits(input, old(receivers), topics.wires)
      ensures tale == Plus(old(tale), UNTOLD.(heard := DeliveryOf(input)))
    {
      PlusUntold(tale);
      var ready := NextReady();
      if ready.None? {
        return Skipped;
      }
      var r := Receive(ready.value);
      input := InputOf(r);
    }

    /** The channel branch: the least ready topic is served once. */
    method HandleChannel() returns (input: Input, success: bool)
      requires Valid()
      modifies this`receivers, this`outgoing, this`admitted, this`trace, this`budget, this`events, this`tale
      ensures Valid() && old(events) <= events && (input.Delivered? || input.Skipped?)
      ensures ChannelFits(input, old(receivers), topics.wires)
      ensures tale == Plus(old(tale), UNTOLD.(heard := DeliveryOf(input)))
      ensures Reacted(input, success)
    {
      input := TakeReady();
      assert View() == old(View()) && budget == old(budget);
      success := HandleReceived(input);
    }

    /** A message is delivered, a lag report ignored. */
    method HandleReceived(input: Input) returns (success: bool)
      requires input.Delivered? || input.Skipped?
      modifies this`outgoing, this`admitted, this`trace, this`budget
      ensures Reacted(input, success)
    {
      if input.Delivered? {
        success := Deliver(input.packet);
      } else {
        success := true;
        assert trace + [] == trace;
      }
    }

    /** A message from a receiver: a QoS 1 message is also kept for retransmission. */
    method Deliver(p: PublishPacket) returns (success: bool)
      modifies this`outgoing, this`admitted, this`trace, this`budget
      ensures Reacted(Delivered(p), success) && (success <==> old(budget) > 0)
      ensures outgoing == old(outgoing) + if !p.qos.AtLeastOnce? then []
                          else [Outgoing(p, if p.expiry.Some? then p.expiry.value else 1, old(admitted))]
      ensures success ==> trace == old(trace) +
                          [Write(PublishOut(p, if p.qos.AtLeastOnce? then Some(old(admitted)) else None))]
    {
      CutAllIo(Reaction(View(), Delivered(p)), budget);
      var entry := None;
      if p.qos.AtLeastOnce? {
        outgoing := outgoing + [Outgoing(p, Interval(p), admitted)];
        entry := Some(admitted);
        admitted := admitted + 1;
      }
      success := WriteToStream(PublishOut(p, entry));
    }

    /** A PUBACK removes every entry with its packet id. */
    method HandlePublishAck(id: PacketId)
      modifies this`outgoing
      ensures Reacted(PublishAcked(id), true)
    {
      RetainOutgoing(Lacks(id));
      assert trace + [] == trace;
    }

    method HandlePing() returns (success: bool)
      modifies this`trace, this`budget
      ensures Reacted(PingRequest, success)
    {
      CutAllIo([Write(PingResponse)], budget);
      success := WriteToStream(PingResponse);
    }

    /** A publish from the client itself. */
    method HandleClientPublish(p: PublishPacket) returns (success: bool)
      requires Valid()
      modifies this`trace, this`budget, this`events, this`tale, topics
      ensures Valid() && events == old(events) + [Broker.Publish(Some(me), p)]
      ensures tale == Plus(old(tale), UNTOLD.(published := [p]))
      ensures Reacted(Input.Publish(p), success)
    {
      success := HandlePublish(p, FromClient);
    }

    /** Dispatches a decoded packet; `more` is false when the session ends. */
    method HandlePacket(packet: Packet, between: seq<seq<Broker.Event>>)
      returns (input: Input, more: bool, ghost d: Story)
      requires Valid()
      modifies this, peers, topics
      ensures Valid() && old(events) <= events
      ensures PacketFits(packet, input, old(receivers).Keys)
      ensures tale == Plus(old(tale), d) && PacketTold(d, packet, between, input, old(will), me, more)
      ensures Reacted(input, more)
    {
      PlusUntold(tale);
      d := UNTOLD;
      match packet {
        case ClientPublish(p) =>
          input, d := Input.Publish(p), UNTOLD.(published := [p]);
          more := HandleClientPublish(p);
        case SubscribePacket(id, filters) =>
          var greetings;
          ghost var n;
          greetings, more, n := HandleSubscribe(id, filters, between);
          input := Input.Subscribe(id, greetings, Grants(filters));
          d := FilterTold(greetings, filters, between, n, me, SubscribeAsk(me));
          assert SubscribeTold(d, filters, between, n, GreetingsOf(input), me, more);
        case UnsubscribePacket(id, filters) =>
          var removed;
          removed, more := HandleUnsubscribe(id, filters, between);
          input := Input.Unsubscribe(id, removed);
          d := FilterTold([], filters, between, |filters|, me, UnsubscribeAsk(me));
        case DisconnectPacket(withWill) =>
          input, d := Disconnect(withWill), UNTOLD.(published := if withWill then AsSeq(will) else []);
          more := HandleDisconnect(withWill);
        case _ =>
          input, more := HandleOwnPacket(packet);
      }
    }

    /** The packets that concern the session alone. */
    method HandleOwnPacket(packet: Packet) returns (input: Input, more: bool)
      requires packet.ConnectPacket? || packet.PingPacket? || packet.PublishAckPacket? || packet.OtherPacket?
      modifies this`will, this`outgoing, this`trace, this`budget
      ensures PacketFits(packet, input, receivers.Keys)
      ensures Reacted(input, more)
    {
      match packet {
        case ConnectPacket(newWill) =>
          input := Connect(newWill);
          more := HandleConnect(newWill);
        case PingPacket =>
          input := PingRequest;
          more := HandlePing();
        case PublishAckPacket(id) =>
          input, more := PublishAcked(id), true;
          HandlePublishAck(id);
        case OtherPacket =>
          input, more := UnknownPacket, false;
          assert trace + [] == trace;
      }
    }

    /** One turn of the event loop. */
    method Select(e: Event) returns (input: Input, more: bool, ghost d: Story)
      requires Valid() && !e.Elsewhere?
      modifies this, peers, topics
      ensures Valid() && old(events) <= events
      ensures Fits(e, input, old(receivers), old(topics.wires))
      ensures tale == Plus(old(tale), d) && TurnTold(d, e, input, old(will), me, more)
      ensures Reacted(input, more)
    {
      PlusUntold(tale);
      d := UNTOLD;
      match e {
        case Closed =>
          input, more := EndOfStream, false;
          assert trace + [] == trace;
        case ReadFailed =>
          input, more := ReadError, false;
          assert trace + [] == trace;
        case Read(packet, between) =>
          input, more, d := HandlePacket(packet, between);
        case ChannelReady =>
          input, more := HandleChannel();
          d := UNTOLD.(heard := DeliveryOf(input));
        case TimedOut =>
          input, d := IdleTimeout, UNTOLD.(published := AsSeq(will));
          more := HandleIdleTimeout();
        case SecondPassed =>
          input := Tick;
          more := HandleTick();
      }
    }

    /** A turn of the loop extends the execution `ins` by one input, and the run by what that input did. */
    method Turn(e: Event, ghost ins: seq<Input>, ghost all: nat) returns (input: Input, more: bool, ghost d: Story)
      requires Valid() && !e.Elsewhere?
      requires Executed(ins, all, true)
      modifies this, peers, topics
      ensures Valid() && old(events) <= events && tale == Plus(old(tale), d)
      ensures var will := Acknowledgements.LatestWill(ins);
              && AnswersOne(boot, events, me, e, input, will, Span(|old(events)|, |events|), more)
              && Tells(d, e, input, will, me, more)
      ensures Executed(ins + [input], all, more)
    {
      ghost var before, left, x, told := View(), budget, State(), tale;
      input, more, d := Select(e);
      Acknowledgements.WillIsLatest(ins);
      TurnTells(d, e, input, old(will), old(receivers), old(topics.wires), me, more);
      AnswersNow(boot, old(events), events, x, told, State(), d, me, e, input, old(will), more);
      RunSnoc(ins, input);
      CutMore(before.trace, Reaction(before, input), left, all);
    }

    /** The loop waits while somebody else acts. */
    method Wait(schedule: seq<Event>, i: nat, ghost ins: seq<Input>, ghost at: seq<Span>, ghost d: Story,
                ghost start: Story, ghost all: nat)
      returns (ghost d': Story)
      requires Valid() && i < |schedule| && schedule[i].Elsewhere? && tale == Plus(start, d) && Executed(ins, all, true)
      requires Progress(boot, events, me, schedule[..i], ins, at, d, true)
      modifies this`events, this`tale, peers, topics
      ensures Valid() && old(events) <= events && tale == Plus(start, d') && Executed(ins, all, true)
      ensures Progress(boot, events, me, schedule[..i + 1], ins, at, d', true)
    {
      ghost var step := UNTOLD.(others := Foreign([schedule[i].event], me));
      Meanwhile([schedule[i].event]);
      ProgressElsewhere(boot, old(events), events, me, schedule, i, ins, at, d);
      PlusAssociates(start, d, step);
      d' := Plus(d, step);
    }

    /** The loop takes a turn of its own. */
    method Advance(schedule: seq<Event>, i: nat, ins: seq<Input>, ghost at: seq<Span>, ghost d: Story,
                   ghost start: Story, ghost all: nat)
      returns (ins': seq<Input>, more: bool, ghost at': seq<Span>, ghost d': Story)
      requires Valid() && i < |schedule| && !schedule[i].Elsewhere? && tale == Plus(start, d)
      requires Progress(boot, events, me, schedule[..i], ins, at, d, true)
      requires Executed(ins, all, true)
      modifies this, peers, topics
      ensures Valid() && old(events) <= events && tale == Plus(start, d') && Executed(ins', all, more)
      ensures Progress(boot, events, me, schedule[..i + 1], ins', at', d', more)
    {
      var input;
      ghost var step;
      input, more, step := Turn(schedule[i], ins, all);
      ProgressTurn(boot, old(events), events, me, schedule, i, ins, at, d, input, step, more);
      PlusAssociates(start, d, step);
      ins', at', d' := ins + [input], at + [Span(|old(events)|, |events|)], Plus(d, step);
    }

    /** The next event of the schedule. */
    method Proceed(schedule: seq<Event>, i: nat, ins: seq<Input>, ghost at: seq<Span>, ghost d: Story,
                   ghost start: Story, ghost all: nat)
      returns (ins': seq<Input>, more: bool, ghost at': seq<Span>, ghost d': Story)
      requires Valid() && i < |schedule| && tale == Plus(start, d) && Executed(ins, all, true)
      requires Progress(boot, events, me, schedule[..i], ins, at, d, true)
      modifies this, peers, topics
      ensures Valid() && old(events) <= events && tale == Plus(start, d') && Executed(ins', all, more)
      ensures Progress(boot, events, me, schedule[..i + 1], ins', at', d', more)
    {
      if schedule[i].Elsewhere? {
        ins', more, at' := ins, true, at;
        d' := Wait(schedule, i, ins, at, d, start, all);
      } else {
        ins', more, at', d' := Advance(schedule, i, ins, at, d, start, all);
      }
    }

    /**
     The event loop over any schedule of events, those of all other sessions and of the bus included. The
     inputs it handles are an execution of the state machine, whose effects it has up to the first stream
     operation that fails. They are handled in a run of the broker that the schedule and the session make:
     each input is what its event means in its own span `at` of that run, and what the session publishes, is
     greeted with and is delivered there is exactly what that input says.
     */
    method HandleRawTcpStream(schedule: seq<Event>) returns (inputs: seq<Input>, ghost at: seq<Span>, ghost d: Story)
      requires Valid() && View() == INIT
      modifies this, peers, topics
      ensures Valid() && Ran(inputs)
      ensures trace == Cut(Run(inputs).trace, old(budget))
      ensures OnlyLastCut(inputs, old(budget))
      ensures |inputs| < |Own(schedule)| ==> Over(inputs, old(budget))
      ensures AnswersAt(boot, events, me, Own(schedule), inputs, at, !Over(inputs, old(budget)))
      ensures Recorded(boot, old(events), events, me, d, schedule, inputs, !Over(inputs, old(budget)))
    {
      inputs, at, d := [], [], UNTOLD;
      PlusUntold(tale);
      ProgressNone(boot, events, me, schedule);
      NothingRan(budget);
      var more, i := true, 0;
      while more && i < |schedule|
        invariant 0 <= i <= |schedule| && Valid() && old(events) <= events && Executed(inputs, old(budget), more)
        invariant tale == Plus(old(tale), d) && Progress(boot, events, me, schedule[..i], inputs, at, d, more)
      {
        inputs, more, at, d := Proceed(schedule, i, inputs, at, d, old(tale), old(budget));
        i := i + 1;
      }
      ProgressAll(boot, events, me, schedule, i, inputs, at, d, more);
      ChroniclesRecord(boot, old(events), old(State()), old(tale), events, State(), me, d, schedule, inputs, more);
    }
  }
}
