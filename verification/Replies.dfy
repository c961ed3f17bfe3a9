/**
 What a session answers, when it shuts its stream down and how it ends, over whole executions: every law says
 outright which input has which effect.
 */
module Replies {
  import opened Prelude
  import opened Packets
  import opened Session
  import opened Acknowledgements

  // Answers other than publishes and their acknowledgements.

  function ReplyBy(a: Action): seq<Reply> {
    if a.Write? && !a.reply.PublishOut? && !a.reply.PublishAck? then [a.reply] else []
  }

  /** The answer due for an input: with its own id, and with its own codes. */
  function ReplyDue(input: Input): seq<Reply> {
    match input
    case Connect(_) => [ConnectAck]
    case PingRequest => [PingResponse]
    case Subscribe(id, _, granted) => [SubscribeAck(id, granted)]
    case Unsubscribe(id, removed) => [UnsubscribeAck(id, removed)]
    case _ => []
  }

  lemma QuietReplies(s: Session, input: Input)
    requires !input.Connect? && !input.PingRequest? && !input.Subscribe? && !input.Unsubscribe?
    ensures Flat(Reaction(s, input), ReplyBy) == []
  {
    if input.Tick? { ResendsArePublishes(Decremented(s.outgoing)); }
    SelectNothing(Reaction(s, input), ReplyBy);
  }

  lemma OneReply(a: Action)
    ensures Flat([a], ReplyBy) == ReplyBy(a)
  {
    assert [a][..0] == [];
  }

  lemma SubscribeReplies(s: Session, input: Input)
    requires input.Subscribe?
    ensures Flat(Reaction(s, input), ReplyBy) == ReplyDue(input)
  {
    var ack := Write(SubscribeAck(input.id, input.granted));
    FlatConcat(Greet(input.greetings), [ack], ReplyBy);
    SelectNothing(Greet(input.greetings), ReplyBy);
    OneReply(ack);
  }

  lemma ReactionReplies(s: Session, input: Input)
    ensures Flat(Reaction(s, input), ReplyBy) == ReplyDue(input)
  {
    if input.Subscribe? {
      SubscribeReplies(s, input);
    } else if input.Connect? || input.PingRequest? || input.Unsubscribe? {
      OneReply(Reaction(s, input)[0]);
    } else {
      QuietReplies(s, input);
    }
  }

  /**
   Every CONNECT, PINGREQ, SUBSCRIBE and UNSUBSCRIBE is answered exactly once, in order, with its own id and its own
   codes, and nothing else is.
   */
  lemma {:induction false} EveryRequestAnswered(ins: seq<Input>)
    ensures Flat(Run(ins).trace, ReplyBy) == Flat(ins, ReplyDue)
  {
    if ins != [] {
      var init, last := ins[..|ins| - 1], ins[|ins| - 1];
      EveryRequestAnswered(init);
      FlatConcat(Run(init).trace, Reaction(Run(init), last), ReplyBy);
      ReactionReplies(Run(init), last);
    }
  }

  // Where greetings stand.

  /** What is written once and for all: a publish without an outgoing entry, or the answer to a SUBSCRIBE. */
  function OnceBy(a: Action): seq<Reply> {
    if a.Write? && ((a.reply.PublishOut? && a.reply.entry.None?) || a.reply.SubscribeAck?) then [a.reply] else []
  }

  function Greeting(p: PublishPacket): seq<Reply> {
    [PublishOut(p, None)]
  }

  /** A SUBSCRIBE writes its greetings in order and then its answer; a delivery without an entry is one write. */
  function OnceDue(input: Input): seq<Reply> {
    match input
    case Subscribe(id, greetings, granted) => Flat(greetings, Greeting) + [SubscribeAck(id, granted)]
    case Delivered(p) => if p.qos.AtLeastOnce? then [] else [PublishOut(p, None)]
    case _ => []
  }

  lemma {:induction false} GreetOnce(greetings: seq<PublishPacket>)
    ensures Flat(Greet(greetings), OnceBy) == Flat(greetings, Greeting)
  {
    if greetings != [] {
      var init := greetings[..|greetings| - 1];
      assert Greet(greetings)[..|greetings| - 1] == Greet(init);
      GreetOnce(init);
    }
  }

  lemma {:induction false} ResendsHaveEntries(q: seq<Outgoing>)
    ensures forall a <- Resends(q) :: OnceBy(a) == []
  {
    if q != [] {
      ResendsHaveEntries(q[..|q| - 1]);
    }
  }

  lemma OtherOnce(s: Session, input: Input)
    requires !input.Subscribe? && !input.Delivered?
    ensures Flat(Reaction(s, input), OnceBy) == []
  {
    ResendsHaveEntries(Decremented(s.outgoing));
    SelectNothing(Reaction(s, input), OnceBy);
  }

  lemma ReactionOnce(s: Session, input: Input)
    ensures Flat(Reaction(s, input), OnceBy) == OnceDue(input)
  {
    if input.Subscribe? {
      var ack := Write(SubscribeAck(input.id, input.granted));
      FlatConcat(Greet(input.greetings), [ack], OnceBy);
      GreetOnce(input.greetings);
      assert [ack][..0] == [];
    } else if input.Delivered? {
      assert Reaction(s, input)[..0] == [];
    } else {
      OtherOnce(s, input);
    }
  }

  /** The answer to a SUBSCRIBE stands after the last of its own greetings and before everything later. */
  lemma {:induction false} GreetingsBeforeAck(ins: seq<Input>)
    ensures Flat(Run(ins).trace, OnceBy) == Flat(ins, OnceDue)
  {
    if ins != [] {
      var init, last := ins[..|ins| - 1], ins[|ins| - 1];
      GreetingsBeforeAck(init);
      FlatConcat(Run(init).trace, Reaction(Run(init), last), OnceBy);
      ReactionOnce(Run(init), last);
    }
  }

  // Wills and shutdowns.

  datatype Farewell = WillOut(packet: PublishPacket) | ShutDown

  function FarewellBy(a: Action): seq<Farewell> {
    if a.Shutdown? then [ShutDown]
    else if a.Apply? && a.source.FromWill? then [WillOut(a.packet)]
    else []
  }

  /** Publishing the packet panics after it was applied and forwarded: it is QoS 1 and has no id to acknowledge. */
  predicate Panics(p: PublishPacket) {
    p.qos.AtLeastOnce? && p.packetId.None?
  }

  /** An idle timeout shuts the stream down after the will, if any, unless that panics; a DISCONNECT never does. */
  function FarewellDue(will: Option<PublishPacket>, input: Input): seq<Farewell> {
    match input
    case IdleTimeout =>
      if will.None? then [ShutDown]
      else if Panics(will.value) then [WillOut(will.value)]
      else [WillOut(will.value), ShutDown]
    case Disconnect(withWill) => if withWill && will.Some? then [WillOut(will.value)] else []
    case _ => []
  }

  function FarewellsDue(ins: seq<Input>): seq<Farewell> {
    if ins == [] then []
    else
      var init, last := ins[..|ins| - 1], ins[|ins| - 1];
      FarewellsDue(init) + FarewellDue(LatestWill(init), last)
  }

  lemma NoFarewell(r: seq<Action>)
    requires forall a <- r :: !a.Shutdown? && (a.Apply? ==> a.source.FromClient?)
    ensures Flat(r, FarewellBy) == []
  {
    SelectNothing(r, FarewellBy);
  }

  lemma PublishFarewell(p: PublishPacket)
    ensures Flat(PublishReaction(p, FromWill), FarewellBy) == [WillOut(p)]
  {
    SelectPublish(p, FromWill, FarewellBy);
    SelectAck(p, FarewellBy);
  }

  lemma IdleFarewell(s: Session)
    ensures Flat(Reaction(s, IdleTimeout), FarewellBy) == FarewellDue(s.will, IdleTimeout)
  {
    var r := WillReaction(s.will);
    if s.will.Some? { PublishFarewell(s.will.value); }
    FlatConcat(r, [Shutdown], FarewellBy);
    assert [Shutdown][..0] == [];
    assert r + [] == r;
  }

  lemma ReactionFarewell(s: Session, input: Input)
    ensures Flat(Reaction(s, input), FarewellBy) == FarewellDue(s.will, input)
  {
    if input.IdleTimeout? {
      IdleFarewell(s);
    } else if input.Disconnect? && input.withWill && s.will.Some? {
      PublishFarewell(s.will.value);
    } else {
      if input.Tick? { ResendsArePublishes(Decremented(s.outgoing)); }
      NoFarewell(Reaction(s, input));
    }
  }

  /**
   The stream is shut down exactly once per idle timeout whose will does not panic, each time after that will, and
   never otherwise.
   */
  lemma {:induction false} ShutdownLaw(ins: seq<Input>)
    ensures Flat(Run(ins).trace, FarewellBy) == FarewellsDue(ins)
  {
    if ins != [] {
      var init, last := ins[..|ins| - 1], ins[|ins| - 1];
      ShutdownLaw(init);
      WillIsLatest(init);
      FlatConcat(Run(init).trace, Reaction(Run(init), last), FarewellBy);
      ReactionFarewell(Run(init), last);
    }
  }

  // How a session ends.

  /** The last input publishes something that panics: its own packet, or the stored will. */
  ghost predicate PanicsLast(ins: seq<Input>)
    requires ins != []
  {
    var will, last := LatestWill(ins[..|ins| - 1]), ins[|ins| - 1];
    || (last.Publish? && Panics(last.packet))
    || ((last.IdleTimeout? || (last.Disconnect? && last.withWill)) && will.Some? && Panics(will.value))
  }

  /**
   How a session ends, exactly: it panics on a QoS 1 publish or will without a packet id; it is reported as
   disconnected unexpectedly at the end of the stream; it errs on an unknown packet, a read error, and every other
   DISCONNECT. Any other input leaves it running.
   */
  lemma {:induction false} EndsExactly(ins: seq<Input>)
    requires ins != []
    ensures var ended, last := Run(ins).ended, ins[|ins| - 1];
            && (ended == Some(Panic) <==> PanicsLast(ins))
            && (ended == Some(UnexpectedDisconnect) <==> last.EndOfStream?)
            && (ended == Some(ClientError) <==>
                  last.UnknownPacket? || last.ReadError? || (last.Disconnect? && !PanicsLast(ins)))
  {
    WillIsLatest(ins[..|ins| - 1]);
  }
}
