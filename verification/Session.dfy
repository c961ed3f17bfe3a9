/**
 One client session as a state machine. An input is one branch of the session's event
 loop with what the registry and the receivers answered; a reaction is the list of effects
 the branch causes, in order. An execution is a list of inputs, so a statement over all
 lists of inputs covers every interleaving with other sessions, timers and the peer.
 */
module Session {
  import opened Prelude
  import opened Packets

  /** A QoS 1 message waiting for its PUBACK. `serial` numbers the entries; nothing reads it. */
  datatype Outgoing = Outgoing(packet: PublishPacket, counter: U32, serial: nat)

  datatype Source = FromClient | FromWill

  /** `entry` is the serial number of the outgoing entry a publish is written for. */
  datatype Reply =
    | PublishOut(packet: PublishPacket, entry: Option<nat>)
    | PublishAck(id: PacketId, reason: PublishAckReason)
    | SubscribeAck(id: PacketId, granted: seq<SubscribeCode>)
    | UnsubscribeAck(id: PacketId, removed: seq<UnsubscribeCode>)
    | ConnectAck
    | PingResponse

  datatype Action =
    | Apply(packet: PublishPacket, source: Source)
    | Forward(packet: PublishPacket)
    | Write(reply: Reply)
    | Shutdown

  datatype Input =
    | Connect(will: Option<PublishPacket>)
    | PingRequest
    | Publish(packet: PublishPacket)
    | PublishAcked(id: PacketId)
    | Subscribe(id: PacketId, greetings: seq<PublishPacket>, granted: seq<SubscribeCode>)
    | Unsubscribe(id: PacketId, removed: seq<UnsubscribeCode>)
    | Disconnect(withWill: bool)
    | UnknownPacket
    | EndOfStream
    | ReadError
    | Delivered(packet: PublishPacket)
    | Skipped
    | IdleTimeout
    | Tick

  datatype Ending = UnexpectedDisconnect | ClientError | Panic

  /** Wills are stored as the publish packet they convert to. */
  datatype Session = Session(
    will: Option<PublishPacket>,
    outgoing: seq<Outgoing>,
    admitted: nat,
    trace: seq<Action>,
    ended: Option<Ending>)

  const INIT := Session(None, [], 0, [], None)

  /** 32-bit subtraction of one, as in a release build: zero wraps around. */
  function Decrement(c: U32): U32 {
    if c == 0 then U32_RANGE - 1 else c - 1
  }

  function Interval(p: PublishPacket): U32 {
    if p.expiry.Some? then p.expiry.value else 1
  }

  function Decremented(q: seq<Outgoing>): seq<Outgoing> {
    seq(|q|, i requires 0 <= i < |q| => q[i].(counter := Decrement(q[i].counter)))
  }

  /** The entries that satisfy `keep`, in order. */
  function Retain(q: seq<Outgoing>, keep: Outgoing -> bool): seq<Outgoing> {
    if q == [] then []
    else
      var rest, e := Retain(q[..|q| - 1], keep), q[|q| - 1];
      if keep(e) then rest + [e] else rest
  }

  predicate Ticking(e: Outgoing) {
    e.counter != 0
  }

  function Lacks(id: PacketId): Outgoing -> bool {
    (e: Outgoing) => e.packet.packetId != Some(id)
  }

  /** The writes of one retransmission tick over the decremented list. */
  function Resends(q: seq<Outgoing>): seq<Action> {
    if q == [] then []
    else
      var rest, e := Resends(q[..|q| - 1]), q[|q| - 1];
      if e.counter != 0 then rest + [Write(PublishOut(e.packet, Some(e.serial)))] else rest
  }

  /** Acknowledging a QoS 1 publish unwraps its packet id. */
  predicate AckPanics(p: PublishPacket) {
    p.qos.AtLeastOnce? && p.packetId.None?
  }

  function AckFor(p: PublishPacket): seq<Action> {
    if p.qos.AtLeastOnce? && p.packetId.Some? then [Write(PublishAck(p.packetId.value, Success))] else []
  }

  /** Handling a publish: registry first, then the Redis queue, then the acknowledgement. */
  function PublishReaction(p: PublishPacket, source: Source): seq<Action> {
    [Apply(p, source), Forward(p)] + AckFor(p)
  }

  function WillReaction(will: Option<PublishPacket>): seq<Action> {
    if will.Some? then PublishReaction(will.value, FromWill) else []
  }

  predicate WillPanics(will: Option<PublishPacket>) {
    will.Some? && AckPanics(will.value)
  }

  function Greet(greetings: seq<PublishPacket>): seq<Action> {
    seq(|greetings|, i requires 0 <= i < |greetings| => Write(PublishOut(greetings[i], None)))
  }

  function Reaction(s: Session, input: Input): seq<Action> {
    match input
    case Connect(_) => [Write(ConnectAck)]
    case PingRequest => [Write(PingResponse)]
    case Publish(p) => PublishReaction(p, FromClient)
    case Subscribe(id, greetings, granted) => Greet(greetings) + [Write(SubscribeAck(id, granted))]
    case Unsubscribe(id, removed) => [Write(UnsubscribeAck(id, removed))]
    case Disconnect(withWill) => if withWill then WillReaction(s.will) else []
    case Delivered(p) => [Write(PublishOut(p, if p.qos.AtLeastOnce? then Some(s.admitted) else None))]
    case IdleTimeout => WillReaction(s.will) + if WillPanics(s.will) then [] else [Shutdown]
    case Tick => Resends(Decremented(s.outgoing))
    case _ => []
  }

  function EndingOf(s: Session, input: Input): Option<Ending> {
    match input
    case Publish(p) => if AckPanics(p) then Some(Panic) else None
    case Disconnect(withWill) => Some(if withWill && WillPanics(s.will) then Panic else ClientError)
    case UnknownPacket => Some(ClientError)
    case ReadError => Some(ClientError)
    case EndOfStream => Some(UnexpectedDisconnect)
    case IdleTimeout => if WillPanics(s.will) then Some(Panic) else None
    case _ => None
  }

  function OutgoingAfter(s: Session, input: Input): seq<Outgoing> {
    match input
    case Delivered(p) =>
      if p.qos.AtLeastOnce? then s.outgoing + [Outgoing(p, Interval(p), s.admitted)] else s.outgoing
    case PublishAcked(id) => Retain(s.outgoing, Lacks(id))
    case Tick => Retain(Decremented(s.outgoing), Ticking)
    case _ => s.outgoing
  }

  function Step(s: Session, input: Input): Session {
    Session(
      if input.Connect? && input.will.Some? then input.will else s.will,
      OutgoingAfter(s, input),
      s.admitted + if input.Delivered? && input.packet.qos.AtLeastOnce? then 1 else 0,
      s.trace + Reaction(s, input),
      EndingOf(s, input))
  }

  function Run(ins: seq<Input>): Session {
    if ins == [] then INIT else Step(Run(ins[..|ins| - 1]), ins[|ins| - 1])
  }

  /** `ins` can be the inputs one session handled: it had not ended before the last of them. */
  ghost predicate Ran(ins: seq<Input>) {
    ins == [] || (Ran(ins[..|ins| - 1]) && Run(ins[..|ins| - 1]).ended.None?)
  }

  // Write failures.

  predicate IsIo(a: Action) {
    a.Write? || a.Shutdown?
  }

  function Ios(actions: seq<Action>): nat {
    if actions == [] then 0 else Ios(actions[..|actions| - 1]) + if IsIo(actions[|actions| - 1]) then 1 else 0
  }

  /** What really happens of `actions` when only `budget` more stream operations succeed. */
  function Cut(actions: seq<Action>, budget: nat): seq<Action> {
    if Ios(actions) <= budget then actions else Cut(actions[..|actions| - 1], budget)
  }

  lemma {:induction false} CutIsPrefix(actions: seq<Action>, budget: nat)
    ensures Cut(actions, budget) <= actions
  {
    if Ios(actions) > budget {
      CutIsPrefix(actions[..|actions| - 1], budget);
    }
  }
}
