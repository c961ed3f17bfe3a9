/** What is lost when a session subscribes again to a topic that it holds. */
module Resubscription {
  import opened Prelude
  import opened Packets
  import opened Broadcast
  import opened Topics
  import opened Broker

  /** A re-subscription moves the receiver to the tail of its wire, whatever is still unread. */
  lemma ResubscribeMoves(boot: Registry, w: World, s: nat, t: Topic)
    requires Inv(w, boot) && Holds(w, s, t)
    ensures var h, h' := w.sessions[s][t], StepSubscribe(w, s, t).sessions[s][t];
            && h.receiver.wire < |w.reg.wires|
            && h'.receiver == Receiver(h.receiver.wire, w.reg.wires[h.receiver.wire].tail)
  {
    assert HeldOk(w, s, t, boot);
  }

  /** How much of the log the old and the new subscription cover together. */
  lemma CoverIsWhole(first: seq<PublishPacket>, rest: seq<PublishPacket>, log: seq<PublishPacket>, a: nat, n: nat,
                     k: nat)
    requires a + n <= k <= |log| && first == log[a..k - n] && rest == log[k..]
    ensures first + rest == log[a..] <==> n == 0
  {
    if n == 0 {
      assert log[a..] == log[a..k] + log[k..];
    } else {
      assert |first + rest| < |log[a..]|;
    }
  }

  lemma YieldedPart(past: Subscription, next: nat, wire: Wire<PublishPacket>, log: seq<PublishPacket>,
                    before: Option<PublishPacket>)
    requires SubOk(past, next, wire, log, before) && past.peak <= CAPACITY
    ensures past.since <= |log| - Backlog(wire, next) && past.got == log[past.since..|log| - Backlog(wire, next)]
  {
  }

  lemma MessagesConcat<T>(a: seq<T>, b: seq<T>)
    ensures Messages(a) + Messages(b) == Messages(a + b)
  {
  }

  lemma MessagesInjective<T>(a: seq<T>, b: seq<T>)
    ensures Messages(a) == Messages(b) <==> a == b
  {
    if Messages(a) == Messages(b) {
      assert |Messages(a)| == |a| && |Messages(b)| == |b|;
      forall i | 0 <= i < |a| ensures a[i] == b[i] { assert Messages(a)[i] == Messages(b)[i]; }
    }
  }

  /** What a subscription yielded and, left alone, would still yield. */
  ghost function Total(w: World, s: nat, t: Topic): seq<Received<PublishPacket>>
    requires Holds(w, s, t) && w.sessions[s][t].receiver.wire < |w.reg.wires|
  {
    var h := w.sessions[s][t];
    Messages(h.past.got) + DrainTrace(w.reg.wires[h.receiver.wire], h.receiver.next)
  }

  /** No backlog of this subscription ever exceeded the channel's capacity. */
  ghost predicate WithinCapacity(w: World, s: nat, t: Topic)
    requires Holds(w, s, t) && w.sessions[s][t].receiver.wire < |w.reg.wires|
  {
    var h := w.sessions[s][t];
    h.past.peak <= CAPACITY && Backlog(w.reg.wires[h.receiver.wire], h.receiver.next) <= CAPACITY
  }

  /**
   A subscription is renewed in any reachable state: its backlog of n messages, which the old receiver would
   have yielded as far as the channel still has them, is what the renewed one at the tail skips.
   */
  lemma {:induction false} ResubscribeSkips(boot: Registry, es: seq<Event>, s: nat, t: Topic)
    requires Booted(boot) && Holds(Run(boot, es), s, t)
    ensures var w, log := Run(boot, es), PublishesTo(es, t);
            var x, x' := w.sessions[s][t].receiver, StepSubscribe(w, s, t).sessions[s][t].receiver;
            && x.wire < |w.reg.wires| && x'.wire == x.wire
            && var wire := w.reg.wires[x.wire];
               && Backlog(wire, x.next) <= |log|
               && DrainTrace(wire, x.next) == DrainOf(Backlog(wire, x.next), log)
               && DrainTrace(wire, x'.next) == []
               && (DrainTrace(wire, x.next) == DrainTrace(wire, x'.next) <==> Backlog(wire, x.next) == 0)
  {
    var w, log := Run(boot, es), PublishesTo(es, t);
    var h := w.sessions[s][t];
    LiveSubscription(boot, es, s, t);
    SubOkDelivers(h.past, h.receiver.next, w.reg.wires[h.receiver.wire], log, Retained(boot, t));
    RunKeepsInv(boot, es);
    ResubscribeMoves(boot, w, s, t);
  }

  lemma {:induction false} YieldedBefore(boot: Registry, es: seq<Event>, s: nat, t: Topic)
    requires Booted(boot) && Holds(Run(boot, es), s, t)
    ensures var w, log := Run(boot, es), PublishesTo(es, t);
            var h := w.sessions[s][t];
            && h.receiver.wire < |w.reg.wires|
            && var n := Backlog(w.reg.wires[h.receiver.wire], h.receiver.next);
               && h.past.since + n <= |log|
               && (h.past.peak <= CAPACITY ==> h.past.got == log[h.past.since..|log| - n])
  {
    LiveSubscription(boot, es, s, t);
    var w := Run(boot, es);
    var h := w.sessions[s][t];
    if h.past.peak <= CAPACITY {
      YieldedPart(h.past, h.receiver.next, w.reg.wires[h.receiver.wire], PublishesTo(es, t), Retained(boot, t));
    }
  }

  /** The messages of two parts of a log are those of the whole log exactly when nothing lies between them. */
  lemma PartsAreWhole(first: seq<PublishPacket>, before: seq<PublishPacket>, log: seq<PublishPacket>, a: nat, n: nat)
    requires before <= log && a + n <= |before| && first == before[a..|before| - n]
    ensures Messages(first) + Messages(log[|before|..]) == Messages(log[a..]) <==> n == 0
  {
    assert first == log[a..|before| - n];
    CoverIsWhole(first, log[|before|..], log, a, n, |before|);
    MessagesConcat(first, log[|before|..]);
    MessagesInjective(first + log[|before|..], log[a..]);
  }

  /**
   The counterpart of the cut: event `k` renews a subscription that is held. While backlogs stay within the
   channel's capacity, what the old one yielded and what the new one yields are together every publish
   since the old one was made if and only if the backlog at `k` was empty.
   */
  lemma {:induction false} ResubscribeCut(boot: Registry, es: seq<Event>, k: nat, s: nat, t: Topic)
    requires Booted(boot) && k < |es| && es[k] == Subscribe(s, t) && Holds(Run(boot, es[..k]), s, t)
    requires Undisturbed(es, k, s, t)
    ensures Holds(Run(boot, es), s, t)
    ensures var w0, w, log := Run(boot, es[..k]), Run(boot, es), PublishesTo(es, t);
            var h0, h := w0.sessions[s][t], w.sessions[s][t];
            && h0.receiver.wire < |w0.reg.wires| && h.receiver.wire < |w.reg.wires| && h0.past.since <= |log|
            && (h0.past.peak <= CAPACITY && WithinCapacity(w, s, t) ==>
                  (Messages(h0.past.got) + Total(w, s, t) == Messages(log[h0.past.since..]) <==>
                   Backlog(w0.reg.wires[h0.receiver.wire], h0.receiver.next) == 0))
  {
    YieldedBefore(boot, es[..k], s, t);
    SubscribeCut(boot, es, k, s, t);
    var w0, w, before, log := Run(boot, es[..k]), Run(boot, es), PublishesTo(es[..k], t), PublishesTo(es, t);
    var h0 := w0.sessions[s][t];
    var n := Backlog(w0.reg.wires[h0.receiver.wire], h0.receiver.next);
    if h0.past.peak <= CAPACITY && WithinCapacity(w, s, t) {
      assert Total(w, s, t) == Messages(log[|before|..]);
      PartsAreWhole(h0.past.got, before, log, h0.past.since, n);
    }
  }
}
