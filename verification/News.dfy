/**
 What the peer of a session gets to see: apart from resends, the publishes on the stream are exactly the greetings
 and deliveries among the session's inputs, in order, up to where the stream fails.
 */
module News {
  import opened Prelude
  import opened Packets
  import opened Session
  import opened Retransmission
  import opened Cuts
  import opened Turns

  /** A publish written after `tr` for the first time: it has no outgoing entry, or its entry was never written. */
  predicate IsNew(tr: seq<Action>, a: Action) {
    a.Write? && a.reply.PublishOut? && (a.reply.entry.Some? ==> Count(tr, a.reply.entry.value) == 0)
  }

  /** The publishes of a trace, without resends. */
  function News(tr: seq<Action>): seq<PublishPacket> {
    if tr == [] then []
    else
      var init, last := tr[..|tr| - 1], tr[|tr| - 1];
      News(init) + if IsNew(init, last) then [last.reply.packet] else []
  }

  function NewsOf(input: Input): seq<PublishPacket> {
    GreetingsOf(input) + DeliveryOf(input)
  }

  lemma NewsSnoc(tr: seq<Action>, a: Action)
    ensures News(tr + [a]) == News(tr) + if IsNew(tr, a) then [a.reply.packet] else []
  {
    assert (tr + [a])[..|tr|] == tr;
  }

  /** What is not new now will not be new later. */
  lemma {:induction false} NewsOld(tr: seq<Action>, more: seq<Action>)
    requires forall a <- more :: !IsNew(tr, a)
    ensures News(tr + more) == News(tr)
  {
    if more == [] {
      assert tr + more == tr;
    } else {
      var init, last := more[..|more| - 1], more[|more| - 1];
      assert last in more;
      NewsOld(tr, init);
      assert tr + more == tr + init + [last];
      NewsSnoc(tr + init, last);
      if last.Write? && last.reply.PublishOut? && last.reply.entry.Some? {
        CountConcat(tr, init, last.reply.entry.value);
      }
    }
  }

  lemma GreetLast(greetings: seq<PublishPacket>)
    requires greetings != []
    ensures Greet(greetings) ==
            Greet(greetings[..|greetings| - 1]) + [Write(PublishOut(greetings[|greetings| - 1], None))]
  {
  }

  lemma {:induction false} NewsGreet(tr: seq<Action>, greetings: seq<PublishPacket>)
    ensures News(tr + Greet(greetings)) == News(tr) + greetings
  {
    if greetings == [] {
      assert tr + Greet([]) == tr;
    } else {
      var init, last := greetings[..|greetings| - 1], greetings[|greetings| - 1];
      NewsGreet(tr, init);
      GreetLast(greetings);
      Reassociate(tr, Greet(init), [Write(PublishOut(last, None))]);
      NewsSnoc(tr + Greet(init), Write(PublishOut(last, None)));
      Reassociate(News(tr), init, [last]);
      assert init + [last] == greetings;
    }
  }

  lemma {:induction false} NewsPrefix(tr: seq<Action>, k: nat)
    requires k <= |tr|
    ensures News(tr[..k]) <= News(tr)
  {
    if k == |tr| {
      assert tr[..k] == tr;
    } else {
      assert tr[..|tr| - 1][..k] == tr[..k];
      NewsPrefix(tr[..|tr| - 1], k);
    }
  }

  // One step.

  /** Every entry in the list was written before. */
  lemma EntryWritten(ins: seq<Input>, i: nat)
    requires i < |Run(ins).outgoing|
    ensures Count(Run(ins).trace, Run(ins).outgoing[i].serial) >= 1
  {
    var q := Run(ins).outgoing;
    EntryFollowsFate(ins, q[i].serial);
    FindMember(q, Run(ins).admitted, i);
  }

  /** What an input adds to the news. */
  ghost predicate Adds(s: Session, input: Input) {
    News(s.trace + Reaction(s, input)) == News(s.trace) + NewsOf(input)
  }

  /** Every entry in the list was written before. */
  ghost predicate AllWritten(s: Session) {
    forall i :: 0 <= i < |s.outgoing| ==> Count(s.trace, s.outgoing[i].serial) >= 1
  }

  lemma ResendIsOld(s: Session, a: Action)
    requires AllWritten(s) && a in Resends(Decremented(s.outgoing))
    ensures !IsNew(s.trace, a)
  {
    var d := Decremented(s.outgoing);
    ResendsAreEntries(d, a);
    var i :| 0 <= i < |d| && a == Write(PublishOut(d[i].packet, Some(d[i].serial)));
    assert d[i].serial == s.outgoing[i].serial;
  }

  lemma TickIsOld(s: Session)
    requires AllWritten(s)
    ensures Adds(s, Tick)
  {
    forall a | a in Resends(Decremented(s.outgoing)) ensures !IsNew(s.trace, a) { ResendIsOld(s, a); }
    NewsOld(s.trace, Resends(Decremented(s.outgoing)));
  }

  /** The next entry was never written. */
  lemma NextUnwritten(ins: seq<Input>)
    ensures Count(Run(ins).trace, Run(ins).admitted) == 0
  {
    EntryFollowsFate(ins, Run(ins).admitted);
  }

  lemma DeliveryIsNew(s: Session, p: PublishPacket)
    requires Count(s.trace, s.admitted) == 0
    ensures Adds(s, Delivered(p))
  {
    NewsSnoc(s.trace, Reaction(s, Delivered(p))[0]);
  }

  lemma SubscribeNews(s: Session, input: Input)
    requires input.Subscribe?
    ensures Adds(s, input)
  {
    var ack := Write(SubscribeAck(input.id, input.granted));
    NewsGreet(s.trace, input.greetings);
    Reassociate(s.trace, Greet(input.greetings), [ack]);
    NewsSnoc(s.trace + Greet(input.greetings), ack);
  }

  lemma OtherNews(s: Session, input: Input)
    requires !input.Subscribe? && !input.Delivered? && !input.Tick?
    ensures Adds(s, input)
  {
    NewsOld(s.trace, Reaction(s, input));
  }

  lemma StepNews(ins: seq<Input>, input: Input)
    ensures Adds(Run(ins), input)
  {
    if input.Tick? {
      forall i | 0 <= i < |Run(ins).outgoing| ensures Count(Run(ins).trace, Run(ins).outgoing[i].serial) >= 1 {
        EntryWritten(ins, i);
      }
      TickIsOld(Run(ins));
    } else if input.Delivered? {
      NextUnwritten(ins);
      DeliveryIsNew(Run(ins), input.packet);
    } else if input.Subscribe? {
      SubscribeNews(Run(ins), input);
    } else {
      OtherNews(Run(ins), input);
    }
  }

  // Whole executions.

  lemma {:induction false} RunNews(ins: seq<Input>)
    ensures News(Run(ins).trace) == Flat(ins, NewsOf)
  {
    if ins != [] {
      RunNews(ins[..|ins| - 1]);
      StepNews(ins[..|ins| - 1], ins[|ins| - 1]);
    }
  }

  /** What an execution does before its last input is not cut. */
  lemma LastIsCut(ins: seq<Input>, budget: nat)
    requires OnlyLastCut(ins, budget) && ins != []
    ensures Run(ins[..|ins| - 1]).trace <= Cut(Run(ins).trace, budget)
  {
    var before := Run(ins[..|ins| - 1]);
    CutMore(before.trace, Reaction(before, ins[|ins| - 1]), budget - Ios(before.trace), budget);
  }

  /**
   What is on the stream, resends aside: all greetings and deliveries of the inputs before the last one, in order,
   and those of the last one as far as its writes succeed.
   */
  lemma {:induction false} StreamShowsNews(ins: seq<Input>, budget: nat)
    requires OnlyLastCut(ins, budget)
    ensures News(Cut(Run(ins).trace, budget)) <= Flat(ins, NewsOf)
    ensures ins != [] ==> Flat(ins[..|ins| - 1], NewsOf) <= News(Cut(Run(ins).trace, budget))
    ensures Ios(Run(ins).trace) <= budget ==> News(Cut(Run(ins).trace, budget)) == Flat(ins, NewsOf)
  {
    CutShowsNews(Run(ins).trace, budget);
    RunNews(ins);
    if ins != [] {
      LastIsCut(ins, budget);
      NewsGrow(Run(ins[..|ins| - 1]).trace, Cut(Run(ins).trace, budget));
      RunNews(ins[..|ins| - 1]);
    }
  }

  lemma NewsGrow(before: seq<Action>, tr: seq<Action>)
    requires before <= tr
    ensures News(before) <= News(tr)
  {
    assert tr[..|before|] == before;
    NewsPrefix(tr, |before|);
  }

  lemma CutShowsNews(tr: seq<Action>, budget: nat)
    ensures News(Cut(tr, budget)) <= News(tr)
    ensures Ios(tr) <= budget ==> Cut(tr, budget) == tr
  {
    CutIsPrefix(tr, budget);
    NewsGrow(Cut(tr, budget), tr);
  }
}
