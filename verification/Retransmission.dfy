/**
 How often a QoS 1 message is written to its subscriber, under every interleaving of
 retransmission ticks, PUBACKs and new messages.
 */
module Retransmission {
  import opened Prelude
  import opened Packets
  import opened Session

  /** How many ticks an entry lives without an acknowledgement: an interval of zero wraps around. */
  function Life(interval: U32): nat {
    if interval == 0 then U32_RANGE else interval
  }

  /** The fate of one entry, followed on its own. */
  datatype Fate =
    | Unborn
    | Alive(packet: PublishPacket, ticks: nat)
    | Acked(packet: PublishPacket, ticks: nat)
    | Expired(packet: PublishPacket)

  /** The number of entries admitted so far. */
  function Born(ins: seq<Input>): nat {
    if ins == [] then 0
    else
      var last := ins[|ins| - 1];
      Born(ins[..|ins| - 1]) + if last.Delivered? && last.packet.qos.AtLeastOnce? then 1 else 0
  }

  /** One input, seen by the entry with number `s` when `born` entries are there already. */
  function Meets(f: Fate, born: nat, s: nat, input: Input): Fate {
    match input
    case Delivered(p) => if born == s && p.qos.AtLeastOnce? then Alive(p, 0) else f
    case PublishAcked(id) => if f.Alive? && f.packet.packetId == Some(id) then Acked(f.packet, f.ticks) else f
    case Tick =>
      if !f.Alive? then f
      else if f.ticks + 1 == Life(Interval(f.packet)) then Expired(f.packet)
      else Alive(f.packet, f.ticks + 1)
    case _ => f
  }

  function FateOf(ins: seq<Input>, s: nat): Fate {
    if ins == [] then Unborn
    else Meets(FateOf(ins[..|ins| - 1], s), Born(ins[..|ins| - 1]), s, ins[|ins| - 1])
  }

  /** How often an entry with this fate has been written. */
  function Writes(f: Fate): nat {
    match f
    case Unborn => 0
    case Alive(_, ticks) => 1 + ticks
    case Acked(_, ticks) => 1 + ticks
    case Expired(p) => Life(Interval(p))
  }

  /** The writes for entry `s` in a trace. */
  function Count(tr: seq<Action>, s: nat): nat {
    if tr == [] then 0 else Count(tr[..|tr| - 1], s) + if IsFor(tr[|tr| - 1], s) then 1 else 0
  }

  predicate IsFor(a: Action, s: nat) {
    a.Write? && a.reply.PublishOut? && a.reply.entry == Some(s)
  }

  /** The entry with number `s` in the outgoing list. */
  function Find(q: seq<Outgoing>, s: nat): Option<Outgoing> {
    if q == [] then None else if q[|q| - 1].serial == s then Some(q[|q| - 1]) else Find(q[..|q| - 1], s)
  }

  /** Entries are numbered in order of admission, below `bound`. */
  ghost predicate Numbered(q: seq<Outgoing>, bound: nat) {
    && (forall i :: 0 <= i < |q| ==> q[i].serial < bound)
    && (forall i, j :: 0 <= i < j < |q| ==> q[i].serial < q[j].serial)
  }

  /** The counter of an entry after so many ticks. */
  function CounterAfter(interval: U32, ticks: nat): U32
    requires ticks < Life(interval)
  {
    if ticks == 0 then interval else Life(interval) - ticks
  }

  /** The entry with the given fate, as it stands in the list. */
  function EntryOf(f: Fate, s: nat): Option<Outgoing> {
    if f.Alive? && f.ticks < Life(Interval(f.packet)) then
      Some(Outgoing(f.packet, CounterAfter(Interval(f.packet), f.ticks), s))
    else None
  }

  // Counting and finding through the list operations.

  lemma {:induction false} CountConcat(a: seq<Action>, b: seq<Action>, s: nat)
    ensures Count(a + b, s) == Count(a, s) + Count(b, s)
  {
    if b == [] {
      assert a + b == a;
    } else {
      assert (a + b)[..|a + b| - 1] == a + b[..|b| - 1];
      CountConcat(a, b[..|b| - 1], s);
    }
  }

  lemma {:induction false} CountNone(tr: seq<Action>, s: nat)
    requires forall a <- tr :: !IsFor(a, s)
    ensures Count(tr, s) == 0
  {
    if tr != [] {
      CountNone(tr[..|tr| - 1], s);
    }
  }

  lemma {:induction false} FindNone(q: seq<Outgoing>, s: nat)
    requires forall i :: 0 <= i < |q| ==> q[i].serial != s
    ensures Find(q, s) == None
  {
    if q != [] {
      FindNone(q[..|q| - 1], s);
    }
  }

  lemma FindSnoc(q: seq<Outgoing>, e: Outgoing, s: nat)
    ensures Find(q + [e], s) == if e.serial == s then Some(e) else Find(q, s)
  {
    assert (q + [e])[..|q|] == q;
  }

  lemma {:induction false} RetainNumbered(q: seq<Outgoing>, bound: nat, keep: Outgoing -> bool)
    requires Numbered(q, bound)
    ensures Numbered(Retain(q, keep), bound)
  {
    if q != [] {
      assert Numbered(q[..|q| - 1], q[|q| - 1].serial);
      RetainNumbered(q[..|q| - 1], q[|q| - 1].serial, keep);
    }
  }

  lemma {:induction false} FindRetain(q: seq<Outgoing>, bound: nat, keep: Outgoing -> bool, s: nat)
    requires Numbered(q, bound)
    ensures Find(Retain(q, keep), s) == if Find(q, s).Some? && keep(Find(q, s).value) then Find(q, s) else None
  {
    if q != [] {
      var init, e := q[..|q| - 1], q[|q| - 1];
      assert Numbered(init, e.serial);
      FindRetain(init, e.serial, keep, s);
      FindSnoc(Retain(init, keep), e, s);
      if e.serial == s {
        FindNone(init, s);
      }
    }
  }

  lemma {:induction false} FindDecremented(q: seq<Outgoing>, s: nat)
    ensures Find(Decremented(q), s) ==
            if Find(q, s).None? then None
            else Some(Find(q, s).value.(counter := Decrement(Find(q, s).value.counter)))
  {
    if q != [] {
      assert Decremented(q)[..|q| - 1] == Decremented(q[..|q| - 1]);
      FindDecremented(q[..|q| - 1], s);
    }
  }

  lemma CountSnoc(tr: seq<Action>, a: Action, s: nat)
    ensures Count(tr + [a], s) == Count(tr, s) + if IsFor(a, s) then 1 else 0
  {
    assert (tr + [a])[..|tr|] == tr;
  }

  lemma {:induction false} CountResends(q: seq<Outgoing>, bound: nat, s: nat)
    requires Numbered(q, bound)
    ensures Count(Resends(q), s) == if Find(q, s).Some? && Find(q, s).value.counter != 0 then 1 else 0
  {
    if q != [] {
      var init, e := q[..|q| - 1], q[|q| - 1];
      assert Numbered(init, e.serial);
      CountResends(init, e.serial, s);
      CountSnoc(Resends(init), Write(PublishOut(e.packet, Some(e.serial))), s);
      if e.serial == s {
        FindNone(init, s);
      }
    }
  }

  // One step, seen from one entry.

  /** The list agrees with the entry's fate. */
  ghost predicate ListAgrees(q: seq<Outgoing>, admitted: nat, f: Fate, s: nat) {
    && Find(q, s) == EntryOf(f, s)
    && (f.Alive? ==> f.ticks < Life(Interval(f.packet)))
    && (f.Unborn? <==> admitted <= s)
  }

  /** The list and the trace agree with the entry's fate. */
  ghost predicate Agrees(x: Session, f: Fate, s: nat) {
    Numbered(x.outgoing, x.admitted) && ListAgrees(x.outgoing, x.admitted, f, s) && Count(x.trace, s) == Writes(f)
  }

  /** One tick over the list: what becomes of entry `s` and how often it is written. */
  lemma TickList(q: seq<Outgoing>, bound: nat, s: nat)
    requires Numbered(q, bound)
    ensures Numbered(Retain(Decremented(q), Ticking), bound)
    ensures match Find(q, s) {
              case None => Find(Retain(Decremented(q), Ticking), s) == None && Count(Resends(Decremented(q)), s) == 0
              case Some(e) =>
                var c := Decrement(e.counter);
                && Find(Retain(Decremented(q), Ticking), s) == (if c == 0 then None else Some(e.(counter := c)))
                && Count(Resends(Decremented(q)), s) == if c == 0 then 0 else 1
            }
  {
    var d := Decremented(q);
    assert Numbered(d, bound);
    FindDecremented(q, s);
    RetainNumbered(d, bound, Ticking);
    FindRetain(d, bound, Ticking, s);
    CountResends(d, bound, s);
  }

  /** One tick of an entry's own fate. */
  lemma TickFate(f: Fate, admitted: nat, s: nat)
    requires f.Alive? ==> f.ticks < Life(Interval(f.packet))
    ensures var f' := Meets(f, admitted, s, Tick);
            && (f'.Alive? ==> f'.ticks < Life(Interval(f'.packet)))
            && (f'.Unborn? <==> f.Unborn?)
            && match EntryOf(f, s) {
                 case None => EntryOf(f', s) == None && Writes(f') == Writes(f)
                 case Some(e) =>
                   var c := Decrement(e.counter);
                   && EntryOf(f', s) == (if c == 0 then None else Some(e.(counter := c)))
                   && Writes(f') == Writes(f) + if c == 0 then 0 else 1
               }
  {
  }

  lemma TickListAgrees(q: seq<Outgoing>, admitted: nat, f: Fate, s: nat)
    requires Numbered(q, admitted) && ListAgrees(q, admitted, f, s)
    ensures Numbered(Retain(Decremented(q), Ticking), admitted)
    ensures ListAgrees(Retain(Decremented(q), Ticking), admitted, Meets(f, admitted, s, Tick), s)
    ensures Writes(f) + Count(Resends(Decremented(q)), s) == Writes(Meets(f, admitted, s, Tick))
  {
    TickFate(f, admitted, s);
    TickList(q, admitted, s);
  }

  lemma TickAgrees(x: Session, f: Fate, s: nat)
    requires Agrees(x, f, s)
    ensures Agrees(Step(x, Tick), Meets(f, x.admitted, s, Tick), s)
  {
    TickListAgrees(x.outgoing, x.admitted, f, s);
    CountConcat(x.trace, Resends(Decremented(x.outgoing)), s);
  }

  lemma AckAgrees(x: Session, f: Fate, s: nat, id: PacketId)
    requires Agrees(x, f, s)
    ensures Agrees(Step(x, PublishAcked(id)), Meets(f, x.admitted, s, PublishAcked(id)), s)
  {
    RetainNumbered(x.outgoing, x.admitted, Lacks(id));
    FindRetain(x.outgoing, x.admitted, Lacks(id), s);
    assert x.trace + [] == x.trace;
  }

  lemma NumberedSnoc(q: seq<Outgoing>, e: Outgoing)
    requires Numbered(q, e.serial)
    ensures Numbered(q + [e], e.serial + 1)
  {
  }

  lemma AdmitWrites(admitted: nat, f: Fate, s: nat, p: PublishPacket)
    requires f.Unborn? <==> admitted <= s
    ensures Writes(Meets(f, admitted, s, Delivered(p))) ==
            Writes(f) + if admitted == s && p.qos.AtLeastOnce? then 1 else 0
  {
  }

  lemma AdmitEntry(admitted: nat, f: Fate, s: nat, p: PublishPacket, found: Option<Outgoing>)
    requires p.qos.AtLeastOnce? && (f.Unborn? <==> admitted <= s) && found == EntryOf(f, s)
    ensures (if admitted == s then Some(Outgoing(p, Interval(p), admitted)) else found) ==
            EntryOf(Meets(f, admitted, s, Delivered(p)), s)
  {
  }

  lemma AdmitAgrees(q: seq<Outgoing>, admitted: nat, f: Fate, s: nat, p: PublishPacket)
    requires ListAgrees(q, admitted, f, s) && p.qos.AtLeastOnce?
    ensures ListAgrees(q + [Outgoing(p, Interval(p), admitted)], admitted + 1, Meets(f, admitted, s, Delivered(p)), s)
  {
    var e := Outgoing(p, Interval(p), admitted);
    FindSnoc(q, e, s);
    AdmitEntry(admitted, f, s, p, Find(q, s));
  }

  lemma DeliveryAgrees(x: Session, f: Fate, s: nat, p: PublishPacket)
    requires Agrees(x, f, s)
    ensures Agrees(Step(x, Delivered(p)), Meets(f, x.admitted, s, Delivered(p)), s)
  {
    var entry := if p.qos.AtLeastOnce? then Some(x.admitted) else None;
    CountSnoc(x.trace, Write(PublishOut(p, entry)), s);
    AdmitWrites(x.admitted, f, s, p);
    if p.qos.AtLeastOnce? {
      AdmitAgrees(x.outgoing, x.admitted, f, s, p);
      NumberedSnoc(x.outgoing, Outgoing(p, Interval(p), x.admitted));
    }
  }

  lemma ReactionForNone(x: Session, input: Input, a: Action, s: nat)
    requires !input.Tick? && !input.Delivered? && a in Reaction(x, input)
    ensures !IsFor(a, s)
  {
  }

  lemma OtherAgrees(x: Session, f: Fate, s: nat, input: Input)
    requires Agrees(x, f, s) && !input.Tick? && !input.PublishAcked? && !input.Delivered?
    ensures Agrees(Step(x, input), f, s)
  {
    var r := Reaction(x, input);
    forall a | a in r ensures !IsFor(a, s) { ReactionForNone(x, input, a, s); }
    CountNone(r, s);
    CountConcat(x.trace, r, s);
  }

  lemma StepAgrees(x: Session, f: Fate, s: nat, input: Input)
    requires Agrees(x, f, s)
    ensures Agrees(Step(x, input), Meets(f, x.admitted, s, input), s)
  {
    match input {
      case Tick => TickAgrees(x, f, s);
      case PublishAcked(id) => AckAgrees(x, f, s, id);
      case Delivered(p) => DeliveryAgrees(x, f, s, p);
      case _ => OtherAgrees(x, f, s, input);
    }
  }

  lemma {:induction false} AdmittedIsBorn(ins: seq<Input>)
    ensures Run(ins).admitted == Born(ins)
  {
    if ins != [] {
      AdmittedIsBorn(ins[..|ins| - 1]);
    }
  }

  /**
   The retransmission theorem: whatever is interleaved, the list holds entry `s` exactly while its own
   fate is to be alive, with its counter at interval minus ticks (mod 2^32), and the number of times
   it was written is what its fate says.
   */
  lemma {:induction false} EntryFollowsFate(ins: seq<Input>, s: nat)
    ensures Agrees(Run(ins), FateOf(ins, s), s)
  {
    if ins != [] {
      var init := ins[..|ins| - 1];
      EntryFollowsFate(init, s);
      AdmittedIsBorn(init);
      StepAgrees(Run(init), FateOf(init, s), s, ins[|ins| - 1]);
    }
  }

  // Closed forms: what an entry's fate is, read off the inputs after its admission.

  function Ticks(ins: seq<Input>): nat {
    if ins == [] then 0 else Ticks(ins[..|ins| - 1]) + if ins[|ins| - 1].Tick? then 1 else 0
  }

  /** Input `k` admits an entry for `p`. */
  ghost predicate Admits(ins: seq<Input>, k: nat, p: PublishPacket) {
    k < |ins| && ins[k] == Delivered(p) && p.qos.AtLeastOnce?
  }

  /** No PUBACK for `p` among the inputs from `i` up to `j`. */
  ghost predicate NoAck(ins: seq<Input>, i: nat, j: nat, p: PublishPacket) {
    j <= |ins| && forall x :: i <= x < j && ins[x].PublishAcked? ==> p.packetId != Some(ins[x].id)
  }

  lemma {:induction false} FateWithoutAck(ins: seq<Input>, k: nat, p: PublishPacket)
    requires Admits(ins, k, p) && NoAck(ins, k + 1, |ins|, p)
    ensures Born(ins) > Born(ins[..k])
    ensures var t := Ticks(ins[k + 1..]);
            FateOf(ins, Born(ins[..k])) == if t < Life(Interval(p)) then Alive(p, t) else Expired(p)
  {
    var init := ins[..|ins| - 1];
    if k < |init| {
      assert init[..k] == ins[..k];
      assert ins[k + 1..][..|ins| - k - 2] == init[k + 1..];
      FateWithoutAck(init, k, p);
    } else {
      assert init == ins[..k];
    }
  }

  /** After `t` ticks entry `s` was written once and once more per tick, but at most `n` times; tick `n` drops it. */
  ghost predicate LivesFor(ins: seq<Input>, s: nat, t: nat, n: nat) {
    && Count(Run(ins).trace, s) == (if t < n then 1 + t else n)
    && (Find(Run(ins).outgoing, s).Some? <==> t < n)
  }

  /**
   An entry that is never acknowledged lives for as many ticks as its expiry interval says, for one tick if it has
   none, and for 2^32 ticks if the interval is zero.
   */
  lemma {:induction false} UnackedCount(ins: seq<Input>, k: nat, p: PublishPacket)
    requires Admits(ins, k, p) && NoAck(ins, k + 1, |ins|, p)
    ensures var s, t := Born(ins[..k]), Ticks(ins[k + 1..]);
            match p.expiry {
              case None => LivesFor(ins, s, t, 1)
              case Some(n) => if n == 0 then LivesFor(ins, s, t, 0x1_0000_0000) else LivesFor(ins, s, t, n)
            }
  {
    FateWithoutAck(ins, k, p);
    EntryFollowsFate(ins, Born(ins[..k]));
  }

  /** So it is written as often as its interval says exactly when the interval is not zero. */
  lemma {:induction false} IntervalIsExactUnlessZero(ins: seq<Input>, k: nat, p: PublishPacket)
    requires Admits(ins, k, p) && NoAck(ins, k + 1, |ins|, p) && p.expiry.Some?
    requires Ticks(ins[k + 1..]) >= if p.expiry.value == 0 then 0x1_0000_0000 else p.expiry.value
    ensures Count(Run(ins).trace, Born(ins[..k])) == p.expiry.value <==> p.expiry.value >= 1
  {
    UnackedCount(ins, k, p);
  }

  ghost predicate AllTicking(q: seq<Outgoing>) {
    forall e <- q :: Ticking(e)
  }

  /** No QoS 1 message with an expiry interval of zero is delivered. */
  ghost predicate NoZeroInterval(ins: seq<Input>) {
    forall k: nat, p :: Admits(ins, k, p) ==> p.expiry != Some(0)
  }

  lemma {:induction false} RetainSelects(q: seq<Outgoing>, keep: Outgoing -> bool)
    ensures forall e <- Retain(q, keep) :: e in q && keep(e)
  {
    if q != [] {
      RetainSelects(q[..|q| - 1], keep);
    }
  }

  lemma StepKeepsTicking(s: Session, input: Input)
    requires AllTicking(s.outgoing)
    requires input.Delivered? && input.packet.qos.AtLeastOnce? ==> Interval(input.packet) >= 1
    ensures AllTicking(OutgoingAfter(s, input))
  {
    match input {
      case PublishAcked(id) => RetainSelects(s.outgoing, Lacks(id));
      case Tick => RetainSelects(Decremented(s.outgoing), Ticking);
      case _ =>
    }
  }

  lemma {:induction false} PositiveCounters(ins: seq<Input>)
    requires NoZeroInterval(ins)
    ensures AllTicking(Run(ins).outgoing)
  {
    if ins != [] {
      var init, last := ins[..|ins| - 1], ins[|ins| - 1];
      assert NoZeroInterval(init) by {
        forall k: nat, p | Admits(init, k, p) ensures p.expiry != Some(0) { assert Admits(ins, k, p); }
      }
      PositiveCounters(init);
      assert last.Delivered? && last.packet.qos.AtLeastOnce? ==> Admits(ins, |ins| - 1, last.packet);
      StepKeepsTicking(Run(init), last);
    }
  }

  lemma AdmittedCounter(ins: seq<Input>, k: nat, p: PublishPacket)
    requires Admits(ins, k, p)
    ensures Outgoing(p, Interval(p), Run(ins[..k]).admitted) in Run(ins[..k + 1]).outgoing
  {
    assert ins[..k + 1][..k] == ins[..k];
    var q := Run(ins[..k + 1]).outgoing;
    assert q[|q| - 1] == Outgoing(p, Interval(p), Run(ins[..k]).admitted);
  }

  /**
   Every counter is at least one whenever the loop starts a turn, over a whole execution,
   exactly when no delivered QoS 1 message has an expiry interval of zero.
   */
  lemma LoopHeadCounters(ins: seq<Input>)
    ensures (forall k :: 0 <= k <= |ins| ==> AllTicking(Run(ins[..k]).outgoing)) <==> NoZeroInterval(ins)
  {
    if NoZeroInterval(ins) {
      forall k | 0 <= k <= |ins| ensures AllTicking(Run(ins[..k]).outgoing) {
        forall j: nat, p | Admits(ins[..k], j, p) ensures p.expiry != Some(0) { assert Admits(ins, j, p); }
        PositiveCounters(ins[..k]);
      }
    } else {
      var k: nat, p :| Admits(ins, k, p) && p.expiry == Some(0);
      AdmittedCounter(ins, k, p);
      assert !AllTicking(Run(ins[..k + 1]).outgoing);
    }
  }

  lemma {:induction false} AckIsFinal(ins: seq<Input>, k: nat, a: nat, p: PublishPacket)
    requires Admits(ins, k, p) && k < a < |ins| && NoAck(ins, k + 1, a, p)
    requires ins[a].PublishAcked? && p.packetId == Some(ins[a].id)
    requires Ticks(ins[k + 1..a]) < Life(Interval(p))
    ensures Born(ins) > Born(ins[..k])
    ensures FateOf(ins, Born(ins[..k])) == Acked(p, Ticks(ins[k + 1..a]))
  {
    var init := ins[..|ins| - 1];
    assert init[..k] == ins[..k];
    if a < |init| {
      assert init[k + 1..a] == ins[k + 1..a];
      AckIsFinal(init, k, a, p);
    } else {
      assert init[k + 1..] == ins[k + 1..a];
      FateWithoutAck(init, k, p);
    }
  }

  /** An entry acknowledged after t ticks, while it is alive, is written 1 + t times and never again. */
  lemma {:induction false} AckedCount(ins: seq<Input>, k: nat, a: nat, p: PublishPacket)
    requires Admits(ins, k, p) && k < a < |ins| && NoAck(ins, k + 1, a, p)
    requires ins[a].PublishAcked? && p.packetId == Some(ins[a].id)
    requires Ticks(ins[k + 1..a]) <
             match p.expiry {
               case None => 1
               case Some(n) => if n == 0 then 0x1_0000_0000 else n
             }
    ensures Count(Run(ins).trace, Born(ins[..k])) == 1 + Ticks(ins[k + 1..a])
    ensures Find(Run(ins).outgoing, Born(ins[..k])) == None
  {
    AckIsFinal(ins, k, a, p);
    EntryFollowsFate(ins, Born(ins[..k]));
  }

  // What the writes carry.

  lemma {:induction false} FindMember(q: seq<Outgoing>, bound: nat, i: nat)
    requires Numbered(q, bound) && i < |q|
    ensures Find(q, q[i].serial) == Some(q[i])
  {
    if i < |q| - 1 {
      assert Numbered(q[..|q| - 1], q[|q| - 1].serial);
      FindMember(q[..|q| - 1], q[|q| - 1].serial, i);
    }
  }

  lemma {:induction false} ResendsAreEntries(q: seq<Outgoing>, a: Action)
    requires a in Resends(q)
    ensures exists i :: 0 <= i < |q| && a == Write(PublishOut(q[i].packet, Some(q[i].serial)))
  {
    var init := q[..|q| - 1];
    if a in Resends(init) {
      ResendsAreEntries(init, a);
      var i :| 0 <= i < |init| && a == Write(PublishOut(init[i].packet, Some(init[i].serial)));
      assert init[i] == q[i];
    }
  }

  /** From its admission on, an entry's fate is that of its packet. */
  lemma {:induction false} FatePacket(ins: seq<Input>, k: nat, p: PublishPacket)
    requires Admits(ins, k, p)
    ensures Born(ins) > Born(ins[..k])
    ensures var f := FateOf(ins, Born(ins[..k])); !f.Unborn? && f.packet == p
  {
    var init := ins[..|ins| - 1];
    if k < |init| {
      assert init[..k] == ins[..k];
      FatePacket(init, k, p);
    } else {
      assert init == ins[..k];
      AdmittedIsBorn(init);
      EntryFollowsFate(init, Born(init));
    }
  }

  lemma ResendCarries(ins: seq<Input>, k: nat, p: PublishPacket, a: Action)
    requires Admits(ins, k, p) && a in Resends(Decremented(Run(ins).outgoing)) && IsFor(a, Born(ins[..k]))
    ensures a.reply.packet == p
  {
    var q, s := Run(ins).outgoing, Born(ins[..k]);
    ResendsAreEntries(Decremented(q), a);
    var i :| 0 <= i < |q| && a == Write(PublishOut(Decremented(q)[i].packet, Some(Decremented(q)[i].serial)));
    EntryFollowsFate(ins, s);
    FindMember(q, Run(ins).admitted, i);
    FatePacket(ins, k, p);
  }

  /** What one more input writes for an entry. */
  lemma StepCarries(ins: seq<Input>, input: Input, k: nat, p: PublishPacket, a: Action)
    requires Admits(ins, k, p) && a in Reaction(Run(ins), input) && IsFor(a, Born(ins[..k]))
    ensures a.reply.packet == p
  {
    if input.Tick? {
      ResendCarries(ins, k, p, a);
    } else if input.Delivered? {
      FatePacket(ins, k, p);
      AdmittedIsBorn(ins);
    } else {
      ReactionForNone(Run(ins), input, a, Born(ins[..k]));
    }
  }

  lemma NotYetWritten(ins: seq<Input>, a: Action)
    requires IsFor(a, Born(ins))
    ensures a !in Run(ins).trace
  {
    AdmittedIsBorn(ins);
    EntryFollowsFate(ins, Born(ins));
    if a in Run(ins).trace { WrittenCounts(Run(ins).trace, a, Born(ins)); }
  }

  lemma {:induction false} WrittenCounts(tr: seq<Action>, a: Action, s: nat)
    requires a in tr && IsFor(a, s)
    ensures Count(tr, s) >= 1
  {
    if tr[|tr| - 1] != a {
      WrittenCounts(tr[..|tr| - 1], a, s);
    }
  }

  /** Every write for an entry, the first one and all resends, carries the packet that was delivered. */
  lemma {:induction false} WritesCarryPacket(ins: seq<Input>, k: nat, p: PublishPacket, a: Action)
    requires Admits(ins, k, p) && a in Run(ins).trace && IsFor(a, Born(ins[..k]))
    ensures a.reply.packet == p
  {
    var init, last := ins[..|ins| - 1], ins[|ins| - 1];
    if k < |init| {
      assert init[..k] == ins[..k];
      if a in Run(init).trace { WritesCarryPacket(init, k, p, a); } else { StepCarries(init, last, k, p, a); }
    } else {
      assert init == ins[..k];
      NotYetWritten(init, a);
    }
  }

  // The whole list, when nothing new arrives.

  function Ticked(q: seq<Outgoing>): seq<Outgoing> {
    Retain(Decremented(q), Ticking)
  }

  function MaxLife(q: seq<Outgoing>): nat {
    if q == [] then 0
    else
      var rest, last := MaxLife(q[..|q| - 1]), Life(q[|q| - 1].counter);
      if rest < last then last else rest
  }

  /** The resends still owed to a list: one less than the life of each entry. */
  function Owed(q: seq<Outgoing>): nat {
    if q == [] then 0 else Owed(q[..|q| - 1]) + Life(q[|q| - 1].counter) - 1
  }

  lemma TickedSnoc(q: seq<Outgoing>)
    requires q != []
    ensures var init, e := q[..|q| - 1], q[|q| - 1];
            var aged := e.(counter := Decrement(e.counter));
            && Ticked(q) == (if Ticking(aged) then Ticked(init) + [aged] else Ticked(init))
            && |Resends(Decremented(q))| == |Resends(Decremented(init))| + if Ticking(aged) then 1 else 0
  {
    assert Decremented(q)[..|q| - 1] == Decremented(q[..|q| - 1]);
  }

  lemma MeasuresSnoc(q: seq<Outgoing>, e: Outgoing)
    ensures MaxLife(q + [e]) == if MaxLife(q) < Life(e.counter) then Life(e.counter) else MaxLife(q)
    ensures Owed(q + [e]) == Owed(q) + Life(e.counter) - 1
  {
    assert (q + [e])[..|q|] == q;
  }

  lemma {:induction false} NonEmptyLives(q: seq<Outgoing>)
    ensures MaxLife(q) >= if q == [] then 0 else 1
  {
  }

  /** How the last entry of `q` changes the measures, if the others age to `aged`. */
  lemma AgeSnoc(q: seq<Outgoing>, aged: seq<Outgoing>)
    requires q != [] && MaxLife(aged) == if |q| == 1 then 0 else MaxLife(q[..|q| - 1]) - 1
    ensures var init, e := q[..|q| - 1], q[|q| - 1].(counter := Decrement(q[|q| - 1].counter));
            var aged' := if Ticking(e) then aged + [e] else aged;
            && MaxLife(aged') == MaxLife(q) - 1
            && Owed(aged') + Owed(init) + (if Ticking(e) then 1 else 0) == Owed(aged) + Owed(q)
  {
    MeasuresSnoc(aged, q[|q| - 1].(counter := Decrement(q[|q| - 1].counter)));
    NonEmptyLives(q[..|q| - 1]);
  }

  lemma {:induction false} TickAgesList(q: seq<Outgoing>)
    ensures MaxLife(Ticked(q)) == if q == [] then 0 else MaxLife(q) - 1
    ensures |Resends(Decremented(q))| + Owed(Ticked(q)) == Owed(q)
  {
    if q != [] {
      TickAgesList(q[..|q| - 1]);
      TickedSnoc(q);
      AgeSnoc(q, Ticked(q[..|q| - 1]));
    }
  }

  function TickedTimes(q: seq<Outgoing>, n: nat): seq<Outgoing>
    decreases n
  {
    if n == 0 then q else TickedTimes(Ticked(q), n - 1)
  }

  function ResendsIn(q: seq<Outgoing>, n: nat): nat
    decreases n
  {
    if n == 0 then 0 else |Resends(Decremented(q))| + ResendsIn(Ticked(q), n - 1)
  }

  /** Without arrivals the list is empty after exactly `MaxLife` ticks, and then all owed resends were made. */
  lemma {:induction false} ListEmptiesExactly(q: seq<Outgoing>, n: nat)
    ensures TickedTimes(q, n) == [] <==> MaxLife(q) <= n
    ensures MaxLife(q) <= n ==> ResendsIn(q, n) == Owed(q)
    decreases n
  {
    TickAgesList(q);
    if n > 0 {
      ListEmptiesExactly(Ticked(q), n - 1);
    }
  }
}
