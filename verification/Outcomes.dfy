/**
 What a session does, said of the packets and timers that its event loop meets: which requests it answers and how,
 what it publishes, and how it ends.
 */
module Outcomes {
  import opened Prelude
  import opened Packets
  import opened Topics
  import opened Session
  import opened Acknowledgements
  import opened Replies
  import opened Sharing
  import opened Subscriptions
  import opened Turns
  import Broker

  /** The topics the session holds receivers for at the start of a span. */
  ghost function HeldAt(boot: Registry, es: seq<Broker.Event>, me: nat, span: Span): set<Topic> {
    var x := Play(boot, if span.from <= |es| then es[..span.from] else es);
    if me in x.held then x.held[me].Keys else {}
  }

  /** The input is what the event means with some receivers for the topics `held`. */
  ghost predicate Means(e: Event, input: Input, held: set<Topic>) {
    exists m, wires :: Fits(e, input, m, wires) && m.Keys == held
  }

  lemma AnswerMeans(boot: Registry, es: seq<Broker.Event>, me: nat, own: seq<Event>, ins: seq<Input>, at: seq<Span>,
                    more: bool, j: nat)
    requires AnswersAt(boot, es, me, own, ins, at, more) && j < |ins|
    ensures Means(own[j], ins[j], HeldAt(boot, es, me, at[j]))
  {
    assert AnswersTo(boot, es, me, own, ins, at, j, more);
    var x, y, x', y' :|
      && Chronicle(boot, es[..at[j].from], x, y, me) && Chronicle(boot, es[..at[j].to], x', y', me)
      && me in x.held && Fits(own[j], ins[j], x.held[me], x.reg.wires)
      && Grows(y, y', own[j], ins[j], LatestWill(ins[..j]), me, more || j < |ins| - 1);
    ChronicleIs(boot, es[..at[j].from], x, y, me);
  }

  ghost predicate CanMean(e: Event, input: Input) {
    exists held :: Means(e, input, held)
  }

  /** Every input is what its event means. */
  ghost predicate Matched(own: seq<Event>, ins: seq<Input>) {
    |ins| <= |own| && forall j :: 0 <= j < |ins| ==> CanMean(own[j], ins[j])
  }

  lemma AnswersMatch(boot: Registry, es: seq<Broker.Event>, me: nat, own: seq<Event>, ins: seq<Input>, at: seq<Span>,
                     more: bool)
    requires AnswersAt(boot, es, me, own, ins, at, more)
    ensures Matched(own, ins)
  {
    forall j | 0 <= j < |ins| ensures CanMean(own[j], ins[j]) {
      AnswerMeans(boot, es, me, own, ins, at, more, j);
    }
  }

  // Answers.

  /** One code per filter: quality of service zero for a concrete filter, a refusal for every other kind. */
  ghost predicate GrantsSaid(codes: seq<SubscribeCode>, filters: seq<TopicFilter>) {
    |codes| == |filters| && forall i :: 0 <= i < |filters| ==>
      codes[i] == (if filters[i].Concrete? then GrantedQoSZero
                   else if filters[i].Wildcard? then WildcardNotSupported
                   else SharedNotSupported)
  }

  /** The answer to an event, when the session holds receivers for the topics `held`. */
  ghost predicate Answer(e: Event, r: seq<Reply>, held: set<Topic>) {
    match e
    case Read(ConnectPacket(_), _) => r == [ConnectAck]
    case Read(PingPacket, _) => r == [PingResponse]
    case Read(SubscribePacket(id, filters), _) =>
      |r| == 1 && r[0].SubscribeAck? && r[0].id == id && GrantsSaid(r[0].granted, filters)
    case Read(UnsubscribePacket(id, filters), _) =>
      |r| == 1 && r[0].UnsubscribeAck? && r[0].id == id && RemovalsOk(r[0].removed, filters, held)
    case _ => r == []
  }

  lemma GrantsAreSaid(filters: seq<TopicFilter>)
    ensures GrantsSaid(Grants(filters), filters)
  {
    if filters != [] { GrantPerFilter(filters, 0); }
    forall i | 0 <= i < |filters|
      ensures Grants(filters)[i] == (if filters[i].Concrete? then GrantedQoSZero
                                     else if filters[i].Wildcard? then WildcardNotSupported
                                     else SharedNotSupported)
    {
      GrantPerFilter(filters, i);
    }
  }

  lemma MeantAnswer(e: Event, input: Input, held: set<Topic>)
    requires Means(e, input, held)
    ensures Answer(e, ReplyDue(input), held)
  {
    if e.Read? && e.received.SubscribePacket? {
      GrantsAreSaid(e.received.filters);
    }
  }

  lemma {:induction false} FlatIsConcat<S, T>(s: seq<S>, f: S -> seq<T>, lists: seq<seq<T>>)
    requires |lists| == |s| && forall i :: 0 <= i < |s| ==> lists[i] == f(s[i])
    ensures Flat(s, f) == Concat(lists)
  {
    if s != [] {
      FlatIsConcat(s[..|s| - 1], f, lists[..|s| - 1]);
    }
  }

  /**
   The answers of a session are those to its events, one after the other: a CONNACK to each CONNECT, a ping response
   to each ping, to each SUBSCRIBE and UNSUBSCRIBE one acknowledgement with its id and a code per filter, and nothing
   to any other packet or timer.
   */
  lemma EventsAnswered(boot: Registry, es: seq<Broker.Event>, me: nat, own: seq<Event>, ins: seq<Input>,
                       at: seq<Span>, more: bool) returns (replies: seq<seq<Reply>>)
    requires AnswersAt(boot, es, me, own, ins, at, more)
    ensures |replies| == |ins| && Flat(Run(ins).trace, ReplyBy) == Concat(replies)
    ensures forall j :: 0 <= j < |ins| ==> Answer(own[j], replies[j], HeldAt(boot, es, me, at[j]))
  {
    replies := seq(|ins|, j requires 0 <= j < |ins| => ReplyDue(ins[j]));
    EveryRequestAnswered(ins);
    FlatIsConcat(ins, ReplyDue, replies);
    forall j | 0 <= j < |ins| ensures Answer(own[j], replies[j], HeldAt(boot, es, me, at[j])) {
      AnswerMeans(boot, es, me, own, ins, at, more, j);
      MeantAnswer(own[j], ins[j], HeldAt(boot, es, me, at[j]));
    }
  }

  // Publishes.

  /** The will of the latest CONNECT packet with one. */
  function WillSeen(own: seq<Event>): Option<PublishPacket> {
    if own == [] then None
    else
      match own[|own| - 1]
      case Read(ConnectPacket(Some(will)), _) => Some(will)
      case _ => WillSeen(own[..|own| - 1])
  }

  /** The event publishes the will, if there is one: the idle timer fired or a DISCONNECT asks for it. */
  predicate AsksForWill(e: Event) {
    e.TimedOut? || (e.Read? && e.received == DisconnectPacket(true))
  }

  /** What an event makes the session publish. */
  function PublishDue(e: Event, will: Option<PublishPacket>): seq<PublishPacket> {
    if e.Read? && e.received.ClientPublish? then [e.received.packet]
    else if AsksForWill(e) && will.Some? then [will.value]
    else []
  }

  function PublishesDue(own: seq<Event>): seq<PublishPacket> {
    if own == [] then []
    else PublishesDue(own[..|own| - 1]) + PublishDue(own[|own| - 1], WillSeen(own[..|own| - 1]))
  }

  lemma MatchedInit(own: seq<Event>, ins: seq<Input>)
    requires Matched(own, ins) && ins != []
    ensures Matched(own, ins[..|ins| - 1]) && own[..|ins|][..|ins| - 1] == own[..|ins| - 1]
    ensures CanMean(own[|ins| - 1], ins[|ins| - 1])
  {
  }

  lemma MeantPublish(e: Event, input: Input, will: Option<PublishPacket>)
    requires CanMean(e, input)
    ensures HandledBy(will, input) == PublishDue(e, will)
  {
  }

  lemma {:induction false} WillMatches(own: seq<Event>, ins: seq<Input>)
    requires Matched(own, ins)
    ensures LatestWill(ins) == WillSeen(own[..|ins|])
  {
    if ins != [] {
      MatchedInit(own, ins);
      WillMatches(own, ins[..|ins| - 1]);
    }
  }

  lemma {:induction false} HandledMatches(own: seq<Event>, ins: seq<Input>)
    requires Matched(own, ins)
    ensures Handled(ins) == PublishesDue(own[..|ins|])
  {
    if ins != [] {
      MatchedInit(own, ins);
      HandledMatches(own, ins[..|ins| - 1]);
      WillMatches(own, ins[..|ins| - 1]);
      MeantPublish(own[|ins| - 1], ins[|ins| - 1], LatestWill(ins[..|ins| - 1]));
    }
  }

  /**
   What a session publishes, to the registry and to Redis, is exactly what its packets and timers call for, in order:
   every publish of its client, and the will of the latest CONNECT with one at each idle timeout and at a DISCONNECT
   that asks for it. Each such publish with quality of service one and an id is acknowledged.
   */
  lemma EventsPublished(own: seq<Event>, ins: seq<Input>)
    requires Matched(own, ins)
    ensures var tr, due := Run(ins).trace, PublishesDue(own[..|ins|]);
            Applied(tr) == due && Forwarded(tr) == due && Acks(tr) == Flat(due, AckDue)
  {
    AckConservation(ins);
    HandledMatches(own, ins);
  }

  // Timers and ends.

  /** Retransmission is driven by the timer and by PUBACKs alone. */
  lemma EventsTimed(own: seq<Event>, ins: seq<Input>, j: nat, id: PacketId)
    requires Matched(own, ins) && j < |ins|
    ensures ins[j].Tick? <==> own[j].SecondPassed?
    ensures ins[j] == PublishAcked(id) <==> own[j].Read? && own[j].received == PublishAckPacket(id)
    ensures ins[j].Delivered? ==> own[j].ChannelReady?
  {
  }

  /** The event makes the session publish something that panics. */
  predicate PublishPanics(e: Event, will: Option<PublishPacket>) {
    var due := PublishDue(e, will); due != [] && Panics(due[0])
  }

  /** Which ends an event leads to. */
  ghost predicate EndsBy(ended: Option<Ending>, e: Event, panics: bool) {
    && (ended == Some(Panic) <==> panics)
    && (ended == Some(UnexpectedDisconnect) <==> e.Closed?)
    && (ended == Some(ClientError) <==>
          e.ReadFailed? || (e.Read? && (e.received.OtherPacket? || (e.received.DisconnectPacket? && !panics))))
  }

  lemma MeantEnd(e: Event, input: Input, will: Option<PublishPacket>, ended: Option<Ending>)
    requires CanMean(e, input)
    requires ended == Some(Panic) <==>
             || (input.Publish? && Panics(input.packet))
             || ((input.IdleTimeout? || (input.Disconnect? && input.withWill)) && will.Some? && Panics(will.value))
    requires ended == Some(UnexpectedDisconnect) <==> input.EndOfStream?
    requires ended == Some(ClientError) <==>
             input.UnknownPacket? || input.ReadError? || (input.Disconnect? && ended != Some(Panic))
    ensures EndsBy(ended, e, PublishPanics(e, will))
  {
  }

  /**
   How a session ends, by its last event: it panics on publishing something of quality of service one without an id;
   it is reported as disconnected unexpectedly when the stream closes; it errs on a packet it does not know, a failed
   read and every other DISCONNECT. After any other event it goes on.
   */
  lemma EventsEnd(own: seq<Event>, ins: seq<Input>)
    requires Matched(own, ins) && ins != []
    ensures var e, before := own[|ins| - 1], own[..|ins| - 1];
            EndsBy(Run(ins).ended, e, PublishPanics(e, WillSeen(before)))
  {
    var init, last := ins[..|ins| - 1], ins[|ins| - 1];
    MatchedInit(own, ins);
    WillMatches(own, init);
    EndsExactly(ins);
    MeantEnd(own[|ins| - 1], last, LatestWill(init), Run(ins).ended);
  }
}
