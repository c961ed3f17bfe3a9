/**
 What a session publishes and acknowledges over a whole execution: the will counting law
 and the conservation of PUBACKs.
 */
module Acknowledgements {
  import opened Prelude
  import opened Packets
  import opened Session

  // What the trace shows.

  function AppliedBy(a: Action): seq<PublishPacket> {
    if a.Apply? then [a.packet] else []
  }

  function ForwardedBy(a: Action): seq<PublishPacket> {
    if a.Forward? then [a.packet] else []
  }

  function WillBy(a: Action): seq<PublishPacket> {
    if a.Apply? && a.source.FromWill? then [a.packet] else []
  }

  /** A PUBACK: the packet id and the reason. */
  function AckBy(a: Action): seq<(PacketId, PublishAckReason)> {
    if a.Write? && a.reply.PublishAck? then [(a.reply.id, a.reply.reason)] else []
  }

  function Applied(tr: seq<Action>): seq<PublishPacket> { Flat(tr, AppliedBy) }

  function Forwarded(tr: seq<Action>): seq<PublishPacket> { Flat(tr, ForwardedBy) }

  function Wills(tr: seq<Action>): seq<PublishPacket> { Flat(tr, WillBy) }

  function Acks(tr: seq<Action>): seq<(PacketId, PublishAckReason)> { Flat(tr, AckBy) }

  /** The acknowledgement owed for a publish: Success with its own id, for QoS 1 with an id. */
  function AckDue(p: PublishPacket): seq<(PacketId, PublishAckReason)> {
    if p.qos.AtLeastOnce? && p.packetId.Some? then [(p.packetId.value, Success)] else []
  }

  // What the inputs say.

  /** The will of the latest CONNECT that carried one. */
  function LatestWill(ins: seq<Input>): Option<PublishPacket> {
    if ins == [] then None
    else if ins[|ins| - 1].Connect? && ins[|ins| - 1].will.Some? then ins[|ins| - 1].will
    else LatestWill(ins[..|ins| - 1])
  }

  predicate TriggersWill(input: Input) {
    input.IdleTimeout? || (input.Disconnect? && input.withWill)
  }

  /** The will an input publishes, if any. */
  function WillOf(will: Option<PublishPacket>, input: Input): seq<PublishPacket> {
    if TriggersWill(input) && will.Some? then [will.value] else []
  }

  /** The publish an input makes the session handle, if any. */
  function HandledBy(will: Option<PublishPacket>, input: Input): seq<PublishPacket> {
    if input.Publish? then [input.packet]
    else if TriggersWill(input) && will.Some? then [will.value]
    else []
  }

  function SourceOf(input: Input): Source {
    if input.Publish? then FromClient else FromWill
  }

  /** One will for each trigger that finds a will stored. */
  function ExpectedWills(ins: seq<Input>): seq<PublishPacket> {
    if ins == [] then []
    else
      var init, last := ins[..|ins| - 1], ins[|ins| - 1];
      ExpectedWills(init) + WillOf(LatestWill(init), last)
  }

  /** All publishes the session handles, wills included. */
  function Handled(ins: seq<Input>): seq<PublishPacket> {
    if ins == [] then []
    else
      var init, last := ins[..|ins| - 1], ins[|ins| - 1];
      Handled(init) + HandledBy(LatestWill(init), last)
  }

  // Selections from reactions.

  lemma {:induction false} SelectNothing<T>(tr: seq<Action>, f: Action -> seq<T>)
    requires forall a <- tr :: f(a) == []
    ensures Flat(tr, f) == []
  {
    if tr != [] {
      SelectNothing(tr[..|tr| - 1], f);
    }
  }

  /** A publish shows its three effects one after the other. */
  lemma SelectPublish<T>(p: PublishPacket, source: Source, f: Action -> seq<T>)
    ensures Flat(PublishReaction(p, source), f) ==
            f(Apply(p, source)) + f(Forward(p)) + Flat(AckFor(p), f)
  {
    var x, y := Apply(p, source), Forward(p);
    assert [x, y][..1] == [x];
    FlatConcat([x, y], AckFor(p), f);
  }

  lemma SelectAck<T>(p: PublishPacket, f: Action -> seq<T>)
    ensures Flat(AckFor(p), f) == if AckFor(p) == [] then [] else f(AckFor(p)[0])
  {
  }

  lemma {:induction false} ResendsArePublishes(q: seq<Outgoing>)
    ensures forall a <- Resends(q) :: a.Write? && a.reply.PublishOut?
  {
    if q != [] {
      ResendsArePublishes(q[..|q| - 1]);
    }
  }

  /** An input that handles no publish causes only other writes. */
  lemma QuietReaction(s: Session, input: Input)
    requires HandledBy(s.will, input) == []
    ensures forall a <- Reaction(s, input) :: a.Shutdown? || (a.Write? && !a.reply.PublishAck?)
  {
    if input.Tick? {
      ResendsArePublishes(Decremented(s.outgoing));
    }
  }

  /** Nothing but publishes and their acknowledgements shows. */
  ghost predicate ShowsPublishesOnly<T>(f: Action -> seq<T>) {
    forall a: Action :: a.Shutdown? || (a.Write? && !a.reply.PublishAck?) ==> f(a) == []
  }

  lemma SelectQuiet<T>(s: Session, input: Input, f: Action -> seq<T>)
    requires ShowsPublishesOnly(f) && HandledBy(s.will, input) == []
    ensures Flat(Reaction(s, input), f) == []
  {
    QuietReaction(s, input);
    SelectNothing(Reaction(s, input), f);
  }

  lemma SelectShutdown<T>(r: seq<Action>, f: Action -> seq<T>)
    requires ShowsPublishesOnly(f)
    ensures Flat(r + [Shutdown], f) == Flat(r, f)
  {
    FlatConcat(r, [Shutdown], f);
    assert [Shutdown][..0] == [];
  }

  lemma SelectWill<T>(s: Session, input: Input, f: Action -> seq<T>)
    requires ShowsPublishesOnly(f) && TriggersWill(input) && s.will.Some?
    ensures Flat(Reaction(s, input), f) == Flat(PublishReaction(s.will.value, FromWill), f)
  {
    var r := PublishReaction(s.will.value, FromWill);
    SelectShutdown(r, f);
    assert r + [] == r;
  }

  /** A reaction shows of publishes exactly those of the publish it handles. */
  lemma SelectReaction<T>(s: Session, input: Input, f: Action -> seq<T>)
    requires ShowsPublishesOnly(f)
    ensures Flat(Reaction(s, input), f) ==
            if HandledBy(s.will, input) == [] then []
            else Flat(PublishReaction(HandledBy(s.will, input)[0], SourceOf(input)), f)
  {
    if HandledBy(s.will, input) == [] {
      SelectQuiet(s, input, f);
    } else if !input.Publish? {
      SelectWill(s, input, f);
    }
  }

  /** What a trace shows of one handled publish. */
  function Shown<T>(p: PublishPacket, source: Source, f: Action -> seq<T>): seq<T> {
    f(Apply(p, source)) + f(Forward(p)) + if AckFor(p) == [] then [] else f(AckFor(p)[0])
  }

  lemma ShownBy(p: PublishPacket, source: Source)
    ensures Shown(p, source, AppliedBy) == [p] && Shown(p, source, ForwardedBy) == [p]
    ensures Shown(p, source, WillBy) == if source.FromWill? then [p] else []
    ensures Shown(p, source, AckBy) == AckDue(p)
  {
  }

  /** What one more input adds to what a trace shows. */
  lemma SelectStep<T>(s: Session, input: Input, f: Action -> seq<T>, shown: seq<T>)
    requires ShowsPublishesOnly(f)
    requires var ps := HandledBy(s.will, input);
             shown == if ps == [] then [] else Shown(ps[0], SourceOf(input), f)
    ensures Flat(Step(s, input).trace, f) == Flat(s.trace, f) + shown
  {
    FlatConcat(s.trace, Reaction(s, input), f);
    SelectReaction(s, input, f);
    if HandledBy(s.will, input) != [] {
      var p := HandledBy(s.will, input)[0];
      SelectPublish(p, SourceOf(input), f);
      SelectAck(p, f);
    }
  }

  // The laws.

  lemma WillStep(s: Session, input: Input)
    ensures Wills(Step(s, input).trace) == Wills(s.trace) + WillOf(s.will, input)
  {
    var ps := HandledBy(s.will, input);
    if ps != [] { ShownBy(ps[0], SourceOf(input)); }
    SelectStep(s, input, WillBy, WillOf(s.will, input));
  }

  lemma {:induction false} WillIsLatest(ins: seq<Input>)
    ensures Run(ins).will == LatestWill(ins)
  {
    if ins != [] {
      WillIsLatest(ins[..|ins| - 1]);
    }
  }

  /**
   The will counting law: a session publishes exactly one will for each idle timeout and each
   DISCONNECT with reason 0x04 that finds a will stored, and it is the will of the latest
   CONNECT that had one. Nothing else publishes a will.
   */
  lemma {:induction false} WillLaw(ins: seq<Input>)
    ensures Wills(Run(ins).trace) == ExpectedWills(ins)
  {
    if ins != [] {
      var init := ins[..|ins| - 1];
      WillLaw(init);
      WillIsLatest(init);
      WillStep(Run(init), ins[|ins| - 1]);
    }
  }

  /** A DISCONNECT and the end of the stream are always the last thing a session handles. */
  lemma {:induction false} DisconnectIsLast(ins: seq<Input>, k: nat)
    requires Ran(ins) && k < |ins| && (ins[k].Disconnect? || ins[k].EndOfStream?)
    ensures k == |ins| - 1
  {
    if k < |ins| - 1 {
      var init := ins[..|ins| - 1];
      DisconnectIsLast(init, k);
    }
  }

  /** Wills are not published at most once: every idle timeout publishes the stored will again. */
  lemma WillTwice(will: PublishPacket)
    requires !AckPanics(will)
    ensures var ins := [Connect(Some(will)), IdleTimeout, IdleTimeout];
            Ran(ins) && Wills(Run(ins).trace) == [will, will]
  {
    var c, once := [Connect(Some(will))], [Connect(Some(will)), IdleTimeout];
    var ins := [Connect(Some(will)), IdleTimeout, IdleTimeout];
    assert c[..0] == [] && once[..1] == c && ins[..2] == once;
    assert Run(c).will == Some(will) && Run(once).will == Some(will);
    assert Ran([]) && Ran(c) && Ran(once);
    WillLaw(ins);
    assert LatestWill(c) == Some(will) && LatestWill(once) == Some(will);
    assert ExpectedWills(c) == [];
    assert ExpectedWills(once) == [will];
  }

  /** Input `i` publishes a will: it is a trigger and finds one stored. */
  ghost predicate FindsWill(ins: seq<Input>, i: nat) {
    i < |ins| && TriggersWill(ins[i]) && LatestWill(ins[..i]).Some?
  }

  lemma FindsWillBefore(ins: seq<Input>, i: nat)
    requires i < |ins| - 1
    ensures FindsWill(ins[..|ins| - 1], i) <==> FindsWill(ins, i)
  {
    assert ins[..|ins| - 1][..i] == ins[..i];
  }

  lemma {:induction false} NoWillIff(ins: seq<Input>)
    ensures |ExpectedWills(ins)| == 0 <==> forall i: nat :: !FindsWill(ins, i)
  {
    if ins != [] {
      var init, n := ins[..|ins| - 1], |ins| - 1;
      NoWillIff(init);
      forall i: nat | i < n ensures FindsWill(init, i) <==> FindsWill(ins, i) { FindsWillBefore(ins, i); }
      assert FindsWill(ins, n) <==> WillOf(LatestWill(init), ins[n]) != [];
    }
  }

  lemma {:induction false} ExpectedOnceIff(ins: seq<Input>)
    ensures |ExpectedWills(ins)| <= 1 <==> forall i: nat, j: nat :: i < j && FindsWill(ins, j) ==> !FindsWill(ins, i)
  {
    if ins != [] {
      var init, n := ins[..|ins| - 1], |ins| - 1;
      ExpectedOnceIff(init);
      NoWillIff(init);
      forall i: nat | i < n ensures FindsWill(init, i) <==> FindsWill(ins, i) { FindsWillBefore(ins, i); }
      assert FindsWill(ins, n) <==> WillOf(LatestWill(init), ins[n]) != [];
    }
  }

  /** When wills are published at most once: exactly if no two triggers find a will stored. */
  lemma {:induction false} WillOnceIff(ins: seq<Input>)
    ensures |Wills(Run(ins).trace)| <= 1 <==> forall i: nat, j: nat :: i < j && FindsWill(ins, j) ==> !FindsWill(ins, i)
  {
    WillLaw(ins);
    ExpectedOnceIff(ins);
  }

  lemma AppliedStep(s: Session, input: Input)
    ensures Applied(Step(s, input).trace) == Applied(s.trace) + HandledBy(s.will, input)
  {
    var ps := HandledBy(s.will, input);
    if ps != [] { ShownBy(ps[0], SourceOf(input)); }
    SelectStep(s, input, AppliedBy, ps);
  }

  lemma ForwardedStep(s: Session, input: Input)
    ensures Forwarded(Step(s, input).trace) == Forwarded(s.trace) + HandledBy(s.will, input)
  {
    var ps := HandledBy(s.will, input);
    if ps != [] { ShownBy(ps[0], SourceOf(input)); }
    SelectStep(s, input, ForwardedBy, ps);
  }

  lemma AcksStep(s: Session, input: Input)
    ensures Acks(Step(s, input).trace) == Acks(s.trace) + Flat(HandledBy(s.will, input), AckDue)
  {
    var ps := HandledBy(s.will, input);
    if ps != [] {
      ShownBy(ps[0], SourceOf(input));
      assert ps[..0] == [] && Flat(ps, AckDue) == [] + AckDue(ps[0]);
    }
    SelectStep(s, input, AckBy, Flat(ps, AckDue));
  }

  /**
   PUBACK conservation: the registry applies, and the Redis queue receives, exactly the publishes
   handled, in order; the PUBACKs are exactly one Success per QoS 1 publish with an id, with that id, in order.
   */
  lemma {:induction false} AckConservation(ins: seq<Input>)
    ensures var tr := Run(ins).trace;
            && Applied(tr) == Handled(ins) && Forwarded(tr) == Handled(ins)
            && Acks(tr) == Flat(Handled(ins), AckDue)
  {
    if ins != [] {
      var init, last := ins[..|ins| - 1], ins[|ins| - 1];
      var s := Run(init);
      AckConservation(init);
      WillIsLatest(init);
      AppliedStep(s, last);
      ForwardedStep(s, last);
      AcksStep(s, last);
      FlatConcat(Handled(init), HandledBy(s.will, last), AckDue);
    }
  }

  /** Action `i` comes in its place: a forward right after the registry applied the same publish,
      and a PUBACK right after the application and the forward of the publish it acknowledges. */
  ghost predicate InPlace(tr: seq<Action>, i: nat)
    requires i < |tr|
  {
    && (tr[i].Forward? ==> i >= 1 && tr[i - 1].Apply? && tr[i - 1].packet == tr[i].packet)
    && (AckBy(tr[i]) != [] ==>
          && i >= 2 && tr[i - 1].Forward? && tr[i - 2].Apply? && tr[i - 2].packet == tr[i - 1].packet
          && tr[i - 1].packet.packetId.Some?
          && var p := tr[i - 1].packet;
             p.qos.AtLeastOnce? && tr[i] == Write(PublishAck(p.packetId.value, Success)))
  }

  lemma InPlaceConcat(a: seq<Action>, b: seq<Action>, i: nat)
    requires forall j: nat :: j < |a| ==> InPlace(a, j)
    requires forall j: nat :: j < |b| ==> InPlace(b, j)
    requires i < |a + b|
    ensures InPlace(a + b, i)
  {
    if i < |a| {
      assert InPlace(a, i);
    } else {
      assert InPlace(b, i - |a|);
    }
  }

  lemma ReactionInPlace(s: Session, input: Input, j: nat)
    requires j < |Reaction(s, input)|
    ensures InPlace(Reaction(s, input), j)
  {
    ResendsArePublishes(Decremented(s.outgoing));
    assert Reaction(s, input)[j] in Reaction(s, input);
  }

  lemma {:induction false} RunInPlace(ins: seq<Input>, i: nat)
    requires i < |Run(ins).trace|
    ensures InPlace(Run(ins).trace, i)
  {
    if ins != [] {
      var init, last := ins[..|ins| - 1], ins[|ins| - 1];
      forall j: nat | j < |Run(init).trace| ensures InPlace(Run(init).trace, j) { RunInPlace(init, j); }
      forall j: nat | j < |Reaction(Run(init), last)| ensures InPlace(Reaction(Run(init), last), j) {
        ReactionInPlace(Run(init), last, j);
      }
      InPlaceConcat(Run(init).trace, Reaction(Run(init), last), i);
    }
  }

  /**
   In every execution, also one cut short after `budget` stream operations, each PUBACK is written only after the
   registry applied its publish and the publish was queued for Redis.
   */
  lemma {:induction false} AcksFollowRegistry(ins: seq<Input>, budget: nat, i: nat)
    requires i < |Cut(Run(ins).trace, budget)|
    ensures InPlace(Cut(Run(ins).trace, budget), i)
  {
    CutIsPrefix(Run(ins).trace, budget);
    RunInPlace(ins, i);
  }
}
