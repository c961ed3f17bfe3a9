/**
 The turns of a session's event loop as values: which input of the state machine an event becomes at the
 state in which it is handled, and what the turn adds to the session's story in a run of the broker.
 */
module Turns {
  import opened Prelude
  import opened Packets
  import opened Broadcast
  import opened Topics
  import opened Order
  import opened Scheduling
  import opened Session
  import opened Subscriptions
  import opened Sharing
  import Acknowledgements
  import Broker

  datatype Packet =
    | ConnectPacket(will: Option<PublishPacket>)
    | PingPacket
    | ClientPublish(packet: PublishPacket)
    | SubscribePacket(id: PacketId, filters: seq<TopicFilter>)
    | UnsubscribePacket(id: PacketId, filters: seq<TopicFilter>)
    | PublishAckPacket(id: PacketId)
    | DisconnectPacket(withWill: bool)
    | OtherPacket

  /**
   One turn of the event loop, or an event of somebody else while this session waits. While a packet with
   filters is handled, others act before each filter: `between` says how.
   */
  datatype Event =
    | Closed
    | ReadFailed
    | Read(received: Packet, between: seq<seq<Broker.Event>>)
    | ChannelReady
    | TimedOut
    | SecondPassed
    | Elsewhere(event: Broker.Event)

  // What a turn means, at the state in which it starts.

  /** The input that a receive becomes: a lag report is skipped. */
  function InputOf(r: Received<PublishPacket>): Input {
    if r.Message? then Delivered(r.value) else Skipped
  }

  /** What the channel branch becomes: the least ready topic is received from. */
  ghost predicate ChannelFits(input: Input, m: Receivers, wires: Wires) {
    if NoneReady(m, wires) then input == Skipped
    else exists t :: LeastReady(t, m, wires) && input == InputOf(Recv(wires[m[t].wire], m[t].next).0)
  }

  ghost predicate PacketFits(packet: Packet, input: Input, held: set<Topic>) {
    match packet
    case ConnectPacket(will) => input == Connect(will)
    case PingPacket => input == PingRequest
    case ClientPublish(p) => input == Publish(p)
    case SubscribePacket(id, filters) => input.Subscribe? && input.id == id && input.granted == Grants(filters)
    case UnsubscribePacket(id, filters) =>
      input.Unsubscribe? && input.id == id && RemovalsOk(input.removed, filters, held)
    case PublishAckPacket(id) => input == PublishAcked(id)
    case DisconnectPacket(withWill) => input == Disconnect(withWill)
    case OtherPacket => input == UnknownPacket
  }

  /** The input that an event of the loop becomes, with these receivers and wires. */
  ghost predicate Fits(e: Event, input: Input, m: Receivers, wires: Wires) {
    match e
    case Closed => input == EndOfStream
    case ReadFailed => input == ReadError
    case Read(packet, _) => PacketFits(packet, input, m.Keys)
    case ChannelReady => ChannelFits(input, m, wires)
    case TimedOut => input == IdleTimeout
    case SecondPassed => input == Tick
    case Elsewhere(_) => false
  }

  function DeliveryOf(input: Input): seq<PublishPacket> {
    if input.Delivered? then [input.packet] else []
  }

  function GreetingsOf(input: Input): seq<PublishPacket> {
    if input.Subscribe? then input.greetings else []
  }

  // What a turn asks of the broker, and what others do meanwhile.

  function SubscribeAsk(me: nat): TopicFilter -> seq<Broker.Event> {
    (f: TopicFilter) => if f.Concrete? then [Broker.Subscribe(me, f.name)] else []
  }

  function UnsubscribeAsk(me: nat): TopicFilter -> seq<Broker.Event> {
    (f: TopicFilter) => if f.Concrete? then [Broker.Drop(me, f.name)] else []
  }

  function Ask(e: Event, me: nat): seq<Broker.Event> {
    match e
    case Read(SubscribePacket(_, filters), _) => Flat(filters, SubscribeAsk(me))
    case Read(UnsubscribePacket(_, filters), _) => Flat(filters, UnsubscribeAsk(me))
    case _ => []
  }

  function AskOf(me: nat): Event -> seq<Broker.Event> {
    (e: Event) => Ask(e, me)
  }

  function Slot(between: seq<seq<Broker.Event>>, i: nat): seq<Broker.Event> {
    if i < |between| then between[i] else []
  }

  /** What others do before the first `n` filters. */
  function During(between: seq<seq<Broker.Event>>, n: nat, me: nat): seq<Broker.Event> {
    if n == 0 then [] else During(between, n - 1, me) + Foreign(Slot(between, n - 1), me)
  }

  lemma {:induction false} DuringPrefix(between: seq<seq<Broker.Event>>, n: nat, k: nat, me: nat)
    requires n <= k
    ensures During(between, n, me) <= During(between, k, me)
  {
    if n < k {
      DuringPrefix(between, n, k - 1, me);
    }
  }

  function ByOthers(e: Event, me: nat): seq<Broker.Event> {
    match e
    case Elsewhere(event) => Foreign([event], me)
    case Read(SubscribePacket(_, filters), between) => During(between, |filters|, me)
    case Read(UnsubscribePacket(_, filters), between) => During(between, |filters|, me)
    case _ => []
  }

  function ByOthersOf(me: nat): Event -> seq<Broker.Event> {
    (e: Event) => ByOthers(e, me)
  }

  /** Nothing in the list is of session `me`. */
  ghost predicate OfOthers(es: seq<Broker.Event>, me: nat) {
    forall e <- es :: if e.Publish? then e.publisher != Some(me) else e.session != me
  }

  lemma {:induction false} OthersAreForeign(es: seq<Broker.Event>, me: nat)
    requires OfOthers(es, me)
    ensures Foreign(es, me) == es
  {
    if es != [] {
      var init, last := es[..|es| - 1], es[|es| - 1];
      assert last in es && ForeignOf(me)(last) == [last];
      OthersAreForeign(init, me);
      assert init + [last] == es;
    }
  }

  ghost predicate AllOfOthers(between: seq<seq<Broker.Event>>, me: nat) {
    forall i :: 0 <= i < |between| ==> OfOthers(between[i], me)
  }

  lemma {:induction false} DuringIsAll(between: seq<seq<Broker.Event>>, n: nat, me: nat)
    requires n <= |between| && AllOfOthers(between, me)
    ensures During(between, n, me) == Concat(between[..n])
  {
    if n > 0 {
      DuringIsAll(between, n - 1, me);
      assert between[..n][..n - 1] == between[..n - 1];
      OthersAreForeign(between[n - 1], me);
    }
  }

  lemma DuringAll(between: seq<seq<Broker.Event>>, me: nat)
    requires AllOfOthers(between, me)
    ensures During(between, |between|, me) == Concat(between)
  {
    DuringIsAll(between, |between|, me);
    assert between[..|between|] == between;
  }

  /** Whatever others can do, they can do it between two turns and before each filter of a packet. */
  lemma OthersInterleave(e: Event, me: nat)
    ensures e.Elsewhere? && OfOthers([e.event], me) ==> ByOthers(e, me) == [e.event]
    ensures e.Read? && (e.received.SubscribePacket? || e.received.UnsubscribePacket?) &&
            |e.between| == |e.received.filters| && AllOfOthers(e.between, me) ==>
              ByOthers(e, me) == Concat(e.between)
  {
    if e.Elsewhere? && OfOthers([e.event], me) {
      OthersAreForeign([e.event], me);
    }
    if e.Read? && AllOfOthers(e.between, me) {
      DuringAll(e.between, me);
    }
  }

  /** The events of a schedule that are this session's own. */
  function Own(schedule: seq<Event>): seq<Event> {
    Flat(schedule, OwnOf)
  }

  function OwnOf(e: Event): seq<Event> {
    if e.Elsewhere? then [] else [e]
  }

  /** What a turn adds to the session's story; a turn that ends the session may stop halfway. */
  ghost predicate Tells(d: Story, e: Event, input: Input, will: Option<PublishPacket>, me: nat, more: bool) {
    && d.published == Acknowledgements.HandledBy(will, input)
    && d.greeted == GreetingsOf(input)
    && d.heard == DeliveryOf(input)
    && d.orderly
    && (if more then d.asked == Ask(e, me) else d.asked <= Ask(e, me))
    && (if more then d.others == ByOthers(e, me) else d.others <= ByOthers(e, me))
  }

  /** One more greeting on the stream, if there is one. */
  lemma GreetSnoc(trace: seq<Action>, greetings: seq<PublishPacket>, greeting: Option<PublishPacket>)
    ensures Greet(greetings + AsSeq(greeting)) == Greet(greetings) + Greet(AsSeq(greeting))
    ensures trace + Greet(greetings + AsSeq(greeting)) == trace + Greet(greetings) + Greet(AsSeq(greeting))
    ensures Greet(greetings + AsSeq(greeting))[..|greetings|] == Greet(greetings)
  {
  }

  // What handlers add to the session's story.

  /** The first `n` filters of a packet, with what others do before each. */
  ghost function FilterTold(greetings: seq<PublishPacket>, filters: seq<TopicFilter>, between: seq<seq<Broker.Event>>,
                            n: nat, me: nat, ask: TopicFilter -> seq<Broker.Event>): Story
    requires n <= |filters|
  {
    UNTOLD.(greeted := greetings, asked := Flat(filters[..n], ask), others := During(between, n, me))
  }

  lemma PlusAsk(y: Story, d: Story, slot: seq<Broker.Event>, greeting: seq<PublishPacket>, ask: seq<Broker.Event>)
    ensures Plus(Plus(Plus(y, d), UNTOLD.(others := slot)), UNTOLD.(greeted := greeting, asked := ask)) ==
            Plus(y, d.(greeted := d.greeted + greeting, asked := d.asked + ask, others := d.others + slot))
  {
  }

  /** One more filter: others act first, then it is asked for, and perhaps greeted. */
  lemma FilterToldSnoc(y: Story, greetings: seq<PublishPacket>, filters: seq<TopicFilter>,
                       between: seq<seq<Broker.Event>>, i: nat, me: nat, ask: TopicFilter -> seq<Broker.Event>,
                       greeting: seq<PublishPacket>)
    requires i < |filters|
    ensures Plus(Plus(Plus(y, FilterTold(greetings, filters, between, i, me, ask)),
                      UNTOLD.(others := Foreign(Slot(between, i), me))),
                 UNTOLD.(greeted := greeting, asked := ask(filters[i]))) ==
            Plus(y, FilterTold(greetings + greeting, filters, between, i + 1, me, ask))
  {
    PlusAsk(y, FilterTold(greetings, filters, between, i, me, ask), Foreign(Slot(between, i), me), greeting,
            ask(filters[i]));
    FlatSnoc(filters, i, ask);
  }

  lemma FilterToldNothing(me: nat, filters: seq<TopicFilter>, between: seq<seq<Broker.Event>>,
                          ask: TopicFilter -> seq<Broker.Event>)
    ensures FilterTold([], filters, between, 0, me, ask) == UNTOLD
  {
  }

  /** A SUBSCRIBE of which `n` filters were handled. */
  ghost predicate SubscribeTold(d: Story, filters: seq<TopicFilter>, between: seq<seq<Broker.Event>>, n: nat,
                                greetings: seq<PublishPacket>, me: nat, more: bool)
  {
    n <= |filters| && (more ==> n == |filters|) &&
    d == FilterTold(greetings, filters, between, n, me, SubscribeAsk(me))
  }

  ghost predicate PacketTold(d: Story, packet: Packet, between: seq<seq<Broker.Event>>, input: Input,
                             will: Option<PublishPacket>, me: nat, more: bool)
  {
    match packet
    case ClientPublish(p) => d == UNTOLD.(published := [p])
    case SubscribePacket(_, filters) => exists n :: SubscribeTold(d, filters, between, n, GreetingsOf(input), me, more)
    case UnsubscribePacket(_, filters) => d == FilterTold([], filters, between, |filters|, me, UnsubscribeAsk(me))
    case DisconnectPacket(withWill) => d == UNTOLD.(published := if withWill then AsSeq(will) else [])
    case _ => d == UNTOLD
  }

  ghost predicate TurnTold(d: Story, e: Event, input: Input, will: Option<PublishPacket>, me: nat, more: bool) {
    match e
    case Read(packet, between) => PacketTold(d, packet, between, input, will, me, more)
    case ChannelReady => d == UNTOLD.(heard := DeliveryOf(input)) && (input.Delivered? || input.Skipped?)
    case TimedOut => d == UNTOLD.(published := AsSeq(will))
    case _ => d == UNTOLD
  }

  lemma SubscribeTells(greetings: seq<PublishPacket>, id: PacketId, filters: seq<TopicFilter>,
                       between: seq<seq<Broker.Event>>, n: nat, input: Input, will: Option<PublishPacket>, me: nat,
                       more: bool)
    requires n <= |filters| && (more ==> n == |filters|) && input.Subscribe? && input.greetings == greetings
    ensures Tells(FilterTold(greetings, filters, between, n, me, SubscribeAsk(me)),
                  Read(SubscribePacket(id, filters), between), input, will, me, more)
  {
    FlatPrefix(filters, n, SubscribeAsk(me));
    DuringPrefix(between, n, |filters|, me);
    assert filters[..|filters|] == filters;
  }

  /** What a turn adds to the story is what its event and its input say. */
  lemma TurnTells(d: Story, e: Event, input: Input, will: Option<PublishPacket>, m: Receivers, wires: Wires, me: nat,
                  more: bool)
    requires TurnTold(d, e, input, will, me, more) && Fits(e, input, m, wires)
    ensures Tells(d, e, input, will, me, more)
  {
    match e {
      case Read(SubscribePacket(id, filters), between) =>
        var n :| SubscribeTold(d, filters, between, n, GreetingsOf(input), me, more);
        SubscribeTells(input.greetings, id, filters, between, n, input, will, me, more);
      case Read(UnsubscribePacket(_, filters), _) =>
        assert filters[..|filters|] == filters;
      case _ =>
    }
  }

  // Where in the run of the broker an input is handled.

  /** What a turn makes of the session's story. */
  ghost predicate Grows(y: Story, y': Story, e: Event, input: Input, will: Option<PublishPacket>, me: nat, more: bool) {
    && y'.published == y.published + Acknowledgements.HandledBy(will, input)
    && y'.greeted == y.greeted + GreetingsOf(input)
    && y'.heard == y.heard + DeliveryOf(input)
    && y'.orderly == y.orderly
    && y.asked <= y'.asked <= y.asked + Ask(e, me) && y.others <= y'.others <= y.others + ByOthers(e, me)
    && (more ==> y'.asked == y.asked + Ask(e, me) && y'.others == y.others + ByOthers(e, me))
  }

  lemma TellsGrows(y: Story, d: Story, e: Event, input: Input, will: Option<PublishPacket>, me: nat, more: bool)
    requires Tells(d, e, input, will, me, more)
    ensures Grows(y, Plus(y, d), e, input, will, me, more)
  {
  }

  /** The points of a run between which an input is handled. */
  datatype Span = Span(from: nat, to: nat)

  /**
   The input is what its event means in the state at the beginning of the span, and what the run adds to the
   session's story within the span is what this input says.
   */
  ghost predicate AnswersOne(boot: Registry, es: seq<Broker.Event>, me: nat, e: Event, input: Input,
                             will: Option<PublishPacket>, span: Span, more: bool)
  {
    span.from <= span.to <= |es| &&
    exists x, y, x', y' ::
      && Chronicle(boot, es[..span.from], x, y, me) && Chronicle(boot, es[..span.to], x', y', me)
      && me in x.held && Fits(e, input, x.held[me], x.reg.wires) && Grows(y, y', e, input, will, me, more)
  }

  /** Since the run determines state and story, it decides which inputs are answers. */
  lemma AnswersAre(boot: Registry, es: seq<Broker.Event>, me: nat, e: Event, input: Input, will: Option<PublishPacket>,
                   span: Span, more: bool, x: Shared, y: Story, x': Shared, y': Story)
    requires span.from <= span.to <= |es|
    requires Chronicle(boot, es[..span.from], x, y, me) && Chronicle(boot, es[..span.to], x', y', me)
    ensures AnswersOne(boot, es, me, e, input, will, span, more) <==>
            me in x.held && Fits(e, input, x.held[me], x.reg.wires) && Grows(y, y', e, input, will, me, more)
  {
    if AnswersOne(boot, es, me, e, input, will, span, more) {
      var u, v, u', v' :|
        && Chronicle(boot, es[..span.from], u, v, me) && Chronicle(boot, es[..span.to], u', v', me)
        && me in u.held && Fits(e, input, u.held[me], u.reg.wires) && Grows(v, v', e, input, will, me, more);
      ChronicleUnique(boot, es[..span.from], x, y, u, v, me);
      ChronicleUnique(boot, es[..span.to], x', y', u', v', me);
    }
  }

  lemma AnswersNow(boot: Registry, es: seq<Broker.Event>, es': seq<Broker.Event>, x: Shared, y: Story, x': Shared,
                   d: Story, me: nat, e: Event, input: Input, will: Option<PublishPacket>, more: bool)
    requires es <= es' && Chronicle(boot, es, x, y, me) && Chronicle(boot, es', x', Plus(y, d), me)
    requires me in x.held && Fits(e, input, x.held[me], x.reg.wires) && Tells(d, e, input, will, me, more)
    ensures AnswersOne(boot, es', me, e, input, will, Span(|es|, |es'|), more)
  {
    assert es'[..|es|] == es && es'[..|es'|] == es';
    TellsGrows(y, d, e, input, will, me, more);
  }

  lemma AnswerStays(boot: Registry, es: seq<Broker.Event>, es': seq<Broker.Event>, me: nat, e: Event, input: Input,
                    will: Option<PublishPacket>, span: Span, more: bool)
    requires AnswersOne(boot, es, me, e, input, will, span, more) && es <= es'
    ensures AnswersOne(boot, es', me, e, input, will, span, more)
  {
    assert es'[..span.from] == es[..span.from] && es'[..span.to] == es[..span.to];
  }

  /** The inputs are answers to the session's own events, one after the other; all but the last are complete. */
  ghost predicate AnswersAt(boot: Registry, es: seq<Broker.Event>, me: nat, own: seq<Event>, ins: seq<Input>,
                            at: seq<Span>, more: bool)
  {
    && |at| == |ins| <= |own|
    && (forall j :: 0 <= j < |ins| ==> AnswersTo(boot, es, me, own, ins, at, j, more))
    && (forall j :: 0 <= j < |at| - 1 ==> at[j].to <= at[j + 1].from)
  }

  ghost predicate AnswersTo(boot: Registry, es: seq<Broker.Event>, me: nat, own: seq<Event>, ins: seq<Input>,
                            at: seq<Span>, j: nat, more: bool)
    requires j < |ins| && |at| == |ins| <= |own|
  {
    AnswersOne(boot, es, me, own[j], ins[j], Acknowledgements.LatestWill(ins[..j]), at[j], more || j < |ins| - 1)
  }

  lemma AnswersSnoc(boot: Registry, es: seq<Broker.Event>, es': seq<Broker.Event>, me: nat, own: seq<Event>,
                    ins: seq<Input>, at: seq<Span>, e: Event, input: Input, more: bool)
    requires |ins| == |own| && AnswersAt(boot, es, me, own, ins, at, true) && es <= es'
    requires AnswersOne(boot, es', me, e, input, Acknowledgements.LatestWill(ins), Span(|es|, |es'|), more)
    ensures AnswersAt(boot, es', me, own + [e], ins + [input], at + [Span(|es|, |es'|)], more)
  {
    var own', ins', at' := own + [e], ins + [input], at + [Span(|es|, |es'|)];
    forall j | 0 <= j < |ins'| ensures AnswersTo(boot, es', me, own', ins', at', j, more) {
      assert ins'[..j] == ins[..j];
      if j < |ins| {
        assert AnswersTo(boot, es, me, own, ins, at, j, true);
        AnswerStays(boot, es, es', me, own[j], ins[j], Acknowledgements.LatestWill(ins[..j]), at[j], true);
      } else {
        assert ins[..j] == ins;
      }
    }
    forall j | 0 <= j < |at'| - 1 ensures at'[j].to <= at'[j + 1].from {
      assert AnswersTo(boot, es, me, own, ins, at, j, true);
    }
  }

  lemma AnswersStay(boot: Registry, es: seq<Broker.Event>, es': seq<Broker.Event>, me: nat, own: seq<Event>,
                    all: seq<Event>, ins: seq<Input>, at: seq<Span>, more: bool)
    requires AnswersAt(boot, es, me, own, ins, at, more) && es <= es' && own <= all
    ensures AnswersAt(boot, es', me, all, ins, at, more)
  {
    forall j | 0 <= j < |ins| ensures AnswersTo(boot, es', me, all, ins, at, j, more) {
      assert AnswersTo(boot, es, me, own, ins, at, j, more);
      AnswerStays(boot, es, es', me, own[j], ins[j], Acknowledgements.LatestWill(ins[..j]), at[j],
                  more || j < |ins| - 1);
    }
  }

  // A whole schedule.

  /**
   What the session published, was greeted with and heard are exactly the publishes, greetings and deliveries
   among its inputs; what it asked and what others did come from the schedule, in order, up to its end.
   */
  ghost predicate Summary(d: Story, schedule: seq<Event>, ins: seq<Input>, me: nat, more: bool) {
    && d.published == Acknowledgements.Handled(ins)
    && d.greeted == Flat(ins, GreetingsOf)
    && d.heard == Flat(ins, DeliveryOf)
    && d.orderly
    && d.asked <= Flat(schedule, AskOf(me)) && d.others <= Flat(schedule, ByOthersOf(me))
    && (more ==> d.asked == Flat(schedule, AskOf(me)) && d.others == Flat(schedule, ByOthersOf(me)))
  }

  lemma SummaryElsewhere(d: Story, schedule: seq<Event>, i: nat, ins: seq<Input>, me: nat)
    requires i < |schedule| && schedule[i].Elsewhere? && Summary(d, schedule[..i], ins, me, true)
    ensures Summary(Plus(d, UNTOLD.(others := Foreign([schedule[i].event], me))), schedule[..i + 1], ins, me, true)
  {
    FlatSnoc(schedule, i, AskOf(me));
    FlatSnoc(schedule, i, ByOthersOf(me));
  }

  lemma InputsSnoc(ins: seq<Input>, input: Input)
    ensures Flat(ins + [input], GreetingsOf) == Flat(ins, GreetingsOf) + GreetingsOf(input)
    ensures Flat(ins + [input], DeliveryOf) == Flat(ins, DeliveryOf) + DeliveryOf(input)
    ensures Acknowledgements.Handled(ins + [input]) ==
            Acknowledgements.Handled(ins) + Acknowledgements.HandledBy(Acknowledgements.LatestWill(ins), input)
  {
    assert (ins + [input])[..|ins|] == ins;
  }

  lemma SummaryTurn(d: Story, step: Story, schedule: seq<Event>, i: nat, ins: seq<Input>, input: Input, me: nat,
                    more: bool)
    requires i < |schedule| && Summary(d, schedule[..i], ins, me, true)
    requires Tells(step, schedule[i], input, Acknowledgements.LatestWill(ins), me, more)
    ensures Summary(Plus(d, step), schedule[..i + 1], ins + [input], me, more)
  {
    InputsSnoc(ins, input);
    FlatSnoc(schedule, i, AskOf(me));
    FlatSnoc(schedule, i, ByOthersOf(me));
    PrefixPlus(d.asked, step.asked, Ask(schedule[i], me));
    PrefixPlus(d.others, step.others, ByOthers(schedule[i], me));
  }

  lemma SummaryAll(d: Story, schedule: seq<Event>, i: nat, ins: seq<Input>, me: nat, more: bool)
    requires i <= |schedule| && Summary(d, schedule[..i], ins, me, more) && (more ==> i == |schedule|)
    ensures Summary(d, schedule, ins, me, more)
  {
    FlatPrefix(schedule, i, AskOf(me));
    FlatPrefix(schedule, i, ByOthersOf(me));
    assert i == |schedule| ==> schedule[..i] == schedule;
  }

  /** A schedule was handled in a run of the broker that went from `before` to `es`. */
  ghost predicate Recorded(boot: Registry, before: seq<Broker.Event>, es: seq<Broker.Event>, me: nat, d: Story,
                           schedule: seq<Event>, ins: seq<Input>, more: bool)
  {
    && Broker.Booted(boot) && before <= es
    && StoryOf(boot, es, me) == Plus(StoryOf(boot, before, me), d) && Summary(d, schedule, ins, me, more)
  }

  lemma ChroniclesRecord(boot: Registry, before: seq<Broker.Event>, x: Shared, y: Story, es: seq<Broker.Event>,
                         x': Shared, me: nat, d: Story, schedule: seq<Event>, ins: seq<Input>, more: bool)
    requires Broker.Booted(boot) && before <= es && Summary(d, schedule, ins, me, more)
    requires Chronicle(boot, before, x, y, me) && Chronicle(boot, es, x', Plus(y, d), me)
    ensures Recorded(boot, before, es, me, d, schedule, ins, more)
  {
    ChronicleIs(boot, before, x, y, me);
    ChronicleIs(boot, es, x', Plus(y, d), me);
  }

  /** How far a schedule has been handled, and where in the run of the broker. */
  ghost predicate Progress(boot: Registry, es: seq<Broker.Event>, me: nat, done: seq<Event>, ins: seq<Input>,
                           at: seq<Span>, d: Story, more: bool)
  {
    |ins| == |Own(done)| && AnswersAt(boot, es, me, Own(done), ins, at, more) && Summary(d, done, ins, me, more)
  }

  lemma ProgressNone(boot: Registry, es: seq<Broker.Event>, me: nat, schedule: seq<Event>)
    ensures Progress(boot, es, me, schedule[..0], [], [], UNTOLD, true)
  {
  }

  lemma ProgressElsewhere(boot: Registry, es: seq<Broker.Event>, es': seq<Broker.Event>, me: nat, schedule: seq<Event>,
                          i: nat, ins: seq<Input>, at: seq<Span>, d: Story)
    requires i < |schedule| && schedule[i].Elsewhere? && es <= es'
    requires Progress(boot, es, me, schedule[..i], ins, at, d, true)
    ensures Progress(boot, es', me, schedule[..i + 1], ins, at,
                     Plus(d, UNTOLD.(others := Foreign([schedule[i].event], me))), true)
  {
    FlatSnoc(schedule, i, OwnOf);
    assert Own(schedule[..i + 1]) == Own(schedule[..i]);
    AnswersStay(boot, es, es', me, Own(schedule[..i]), Own(schedule[..i + 1]), ins, at, true);
    SummaryElsewhere(d, schedule, i, ins, me);
  }

  lemma ProgressTurn(boot: Registry, es: seq<Broker.Event>, es': seq<Broker.Event>, me: nat, schedule: seq<Event>,
                     i: nat, ins: seq<Input>, at: seq<Span>, d: Story, input: Input, step: Story, more: bool)
    requires i < |schedule| && !schedule[i].Elsewhere? && es <= es'
    requires Progress(boot, es, me, schedule[..i], ins, at, d, true)
    requires var will := Acknowledgements.LatestWill(ins);
             && AnswersOne(boot, es', me, schedule[i], input, will, Span(|es|, |es'|), more)
             && Tells(step, schedule[i], input, will, me, more)
    ensures Progress(boot, es', me, schedule[..i + 1], ins + [input], at + [Span(|es|, |es'|)], Plus(d, step), more)
  {
    FlatSnoc(schedule, i, OwnOf);
    AnswersSnoc(boot, es, es', me, Own(schedule[..i]), ins, at, schedule[i], input, more);
    SummaryTurn(d, step, schedule, i, ins, input, me, more);
  }

  lemma ProgressAll(boot: Registry, es: seq<Broker.Event>, me: nat, schedule: seq<Event>, i: nat, ins: seq<Input>,
                    at: seq<Span>, d: Story, more: bool)
    requires i <= |schedule| && Progress(boot, es, me, schedule[..i], ins, at, d, more) && (more ==> i == |schedule|)
    ensures AnswersAt(boot, es, me, Own(schedule), ins, at, more) && Summary(d, schedule, ins, me, more)
    ensures |ins| < |Own(schedule)| ==> i < |schedule|
  {
    FlatPrefix(schedule, i, OwnOf);
    AnswersStay(boot, es, es, me, Own(schedule[..i]), Own(schedule), ins, at, more);
    SummaryAll(d, schedule, i, ins, me, more);
    assert i == |schedule| ==> schedule[..i] == schedule;
  }

  // The execution that goes with it.

  /** The session is over: it ended, or a stream operation failed. */
  ghost predicate Over(ins: seq<Input>, budget: nat) {
    Run(ins).ended.Some? || Ios(Run(ins).trace) > budget
  }

  /** All stream operations before those of the last input succeeded. */
  ghost predicate OnlyLastCut(ins: seq<Input>, budget: nat) {
    ins == [] || Ios(Run(ins[..|ins| - 1]).trace) <= budget
  }

  lemma NothingRan(budget: nat)
    ensures Ran([]) && Run([]) == INIT && Ios([]) == 0 && Cut(Run([]).trace, budget) == []
  {
  }
}
