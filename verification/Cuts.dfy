/** Reactions cut short by a failing stream, and lists of resends taken entry by entry. */
module Cuts {
  import opened Prelude
  import opened Packets
  import opened Session

  lemma {:induction false} IosConcat(a: seq<Action>, b: seq<Action>)
    ensures Ios(a + b) == Ios(a) + Ios(b)
  {
    if b == [] {
      assert a + b == a;
    } else {
      assert (a + b)[..|a + b| - 1] == a + b[..|b| - 1];
      IosConcat(a, b[..|b| - 1]);
    }
  }

  lemma {:induction false} CutConcat(a: seq<Action>, b: seq<Action>, budget: nat)
    ensures Ios(a) <= budget ==> Cut(a + b, budget) == a + Cut(b, budget - Ios(a))
    ensures Ios(a) > budget ==> Cut(a + b, budget) == Cut(a, budget)
  {
    IosConcat(a, b);
    if b == [] {
      assert a + b == a;
    } else if Ios(a + b) > budget {
      assert (a + b)[..|a + b| - 1] == a + b[..|b| - 1];
      CutConcat(a, b[..|b| - 1], budget);
    }
  }

  lemma {:induction false} IosNone(a: seq<Action>)
    requires forall x <- a :: !IsIo(x)
    ensures Ios(a) == 0
  {
    if a != [] {
      IosNone(a[..|a| - 1]);
    }
  }

  /** A reaction of stream operations only is cut to as many as succeed. */
  lemma {:induction false} CutAllIo(a: seq<Action>, budget: nat)
    requires forall x <- a :: IsIo(x)
    ensures Ios(a) == |a|
    ensures Cut(a, budget) == if |a| <= budget then a else a[..budget]
  {
    if a != [] {
      CutAllIo(a[..|a| - 1], budget);
      assert budget < |a| ==> a[..|a| - 1][..budget] == a[..budget];
    }
  }

  /** Only the acknowledgement of a publish touches the stream. */
  lemma CutPublish(p: PublishPacket, source: Source, budget: nat)
    ensures var acked, head := p.qos.AtLeastOnce? && p.packetId.Some?, [Apply(p, source), Forward(p)];
            && Ios(PublishReaction(p, source)) == (if acked then 1 else 0)
            && Cut(PublishReaction(p, source), budget) ==
               head + if acked && budget > 0 then [Write(PublishAck(p.packetId.value, Success))] else []
  {
    var head := [Apply(p, source), Forward(p)];
    IosNone(head);
    IosConcat(head, AckFor(p));
    CutConcat(head, AckFor(p), budget);
    CutAllIo(AckFor(p), budget);
  }

  lemma {:induction false} ResendsPrefix(q: seq<Outgoing>, i: nat)
    requires i <= |q|
    ensures Resends(q[..i]) <= Resends(q)
  {
    if i < |q| {
      var init := q[..|q| - 1];
      assert init[..i] == q[..i];
      ResendsPrefix(init, i);
    } else {
      assert q[..i] == q;
    }
  }

  lemma {:induction false} ResendsAreIo(q: seq<Outgoing>)
    ensures forall x <- Resends(q) :: IsIo(x)
  {
    if q != [] {
      ResendsAreIo(q[..|q| - 1]);
    }
  }

  lemma ResendsStep(d: seq<Outgoing>, i: nat)
    requires i < |d|
    ensures Resends(d[..i + 1]) ==
            if d[i].counter != 0 then Resends(d[..i]) + [Write(PublishOut(d[i].packet, Some(d[i].serial)))]
            else Resends(d[..i])
  {
    assert d[..i + 1][..i] == d[..i];
  }

  /** A live entry that cannot be written: exactly the resends before it were made. */
  lemma ResendsStop(d: seq<Outgoing>, i: nat)
    requires i < |d| && d[i].counter != 0
    ensures var done, due := Resends(d[..i]), Resends(d);
            |done| < |due| && due[..|done|] == done
  {
    ResendsStep(d, i);
    ResendsPrefix(d, i + 1);
  }

  /** Where the idle branch stops when the stream fails. */
  lemma CutWill(will: Option<PublishPacket>, budget: nat)
    ensures var a := WillReaction(will);
            var all := a + if WillPanics(will) then [] else [Shutdown];
            && Ios(all) == Ios(a) + (if WillPanics(will) then 0 else 1)
            && Cut(all, budget) == if !WillPanics(will) && Ios(a) < budget then a + [Shutdown] else Cut(a, budget)
  {
    var a := WillReaction(will);
    assert a + [] == a;
    CutAllIo([Shutdown], 0);
    IosConcat(a, [Shutdown]);
    CutConcat(a, [Shutdown], budget);
    if Ios(a) < budget {
      CutAllIo([Shutdown], budget - Ios(a));
    }
  }

  lemma CutIdle(s: Session, budget: nat)
    ensures var a, r, done := WillReaction(s.will), Reaction(s, IdleTimeout), !WillPanics(s.will);
            && (EndingOf(s, IdleTimeout).None? <==> done)
            && (done && Ios(a) < budget ==>
                  && Ios(r) == Ios(a) + 1 && Cut(r, budget) == a + [Shutdown]
                  && Step(s, IdleTimeout) == s.(trace := s.trace + (a + [Shutdown]), ended := None))
            && (!done || Ios(a) >= budget ==> Cut(r, budget) == Cut(a, budget) && (done ==> Ios(r) > budget))
  {
    CutWill(s.will, budget);
  }

  /** Where a SUBSCRIBE stops when the stream fails. */
  lemma CutSubscribe(greetings: seq<PublishPacket>, ack: Reply, budget: nat)
    ensures var due, all := Greet(greetings), Greet(greetings) + [Write(ack)];
            && Ios(all) == |due| + 1
            && Cut(all, budget) == if budget < |due| then due[..budget] else if budget == |due| then due else all
  {
    var due := Greet(greetings);
    CutAllIo(due + [Write(ack)], budget);
    assert budget <= |due| ==> (due + [Write(ack)])[..budget] == due[..budget];
    assert due[..|due|] == due;
  }

  lemma RunSnoc(ins: seq<Input>, input: Input)
    requires Ran(ins) && Run(ins).ended.None?
    ensures Ran(ins + [input]) && Run(ins + [input]) == Step(Run(ins), input)
  {
    assert (ins + [input])[..|ins|] == ins;
  }

  /** Effects `more` after effects `done`, with `left` of `budget` stream operations left between them. */
  lemma CutMore(done: seq<Action>, more: seq<Action>, left: nat, budget: nat)
    requires left + Ios(done) == budget
    ensures Cut(done + more, budget) == done + Cut(more, left)
    ensures Ios(done + more) == Ios(done) + Ios(more)
  {
    CutConcat(done, more, budget);
    IosConcat(done, more);
  }

  /** What a SUBSCRIBE does to the session, the run aside: it writes, and nothing else changes. */
  lemma SubscribeReaction(s: Session, input: Input)
    requires input.Subscribe?
    ensures Reaction(s, input) == Greet(input.greetings) + [Write(SubscribeAck(input.id, input.granted))]
    ensures EndingOf(s, input) == None
    ensures Step(s, input) == Session(s.will, s.outgoing, s.admitted, s.trace + Reaction(s, input), None)
  {
  }
}
