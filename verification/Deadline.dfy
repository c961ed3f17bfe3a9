/**
 When the idle branch of the event loop fires, with an ideal clock, instant writes, a silent
 peer and no channel messages. Both timers are started afresh at every turn of the loop.
 */
module Deadline {
  import opened Packets
  import opened Session
  import opened Retransmission

  const U16_RANGE: nat := 0x1_0000

  type U16 = n: int | 0 <= n < U16_RANGE

  /** The idle timer in seconds; the sum is 16-bit, as in a release build. */
  function IdleDelay(timeout: U16): nat {
    (timeout + 2) % U16_RANGE
  }

  datatype Branch = Idle | Resend

  /** A branch can win a turn when its timer is armed and no armed timer is shorter. */
  predicate CanWin(q: seq<Outgoing>, delay: nat, b: Branch) {
    match b
    case Idle => q == [] || delay <= 1
    case Resend => q != [] && 1 <= delay
  }

  /** The turns of a silent execution until, and without, the first idle timeout. */
  ghost predicate Silent(q: seq<Outgoing>, delay: nat, turns: nat)
    decreases turns
  {
    turns > 0 ==> CanWin(q, delay, Resend) && Silent(Ticked(q), delay, turns - 1)
  }

  /** The idle branch can fire after `turns` retransmission turns. */
  ghost predicate IdleAfter(q: seq<Outgoing>, timeout: U16, turns: nat) {
    Silent(q, IdleDelay(timeout), turns) && CanWin(TickedTimes(q, turns), IdleDelay(timeout), Idle)
  }

  /** The seconds from the last activity to the idle timeout: one per retransmission turn. */
  function Elapsed(timeout: U16, turns: nat): nat {
    turns + IdleDelay(timeout)
  }

  lemma {:induction false} TurnsAreExact(q: seq<Outgoing>, delay: nat, turns: nat)
    requires delay >= 2 && Silent(q, delay, turns)
    ensures CanWin(TickedTimes(q, turns), delay, Idle) <==> turns == MaxLife(q)
    ensures turns <= MaxLife(q)
    decreases turns
  {
    TickAgesList(q);
    if turns > 0 {
      TurnsAreExact(Ticked(q), delay, turns - 1);
    }
  }

  lemma {:induction false} SilentExists(q: seq<Outgoing>, delay: nat)
    requires delay >= 1
    ensures Silent(q, delay, MaxLife(q))
    decreases MaxLife(q)
  {
    TickAgesList(q);
    if q != [] {
      SilentExists(Ticked(q), delay);
    }
  }

  /**
   The exact deadline: for a timeout of at most 65533 the idle branch fires, for the first time,
   exactly M + timeout + 2 seconds after the last activity, where M is the longest life in the
   outgoing list, and the list is empty by then.
   */
  lemma IdleDeadline(q: seq<Outgoing>, timeout: U16, turns: nat)
    requires timeout <= 65533
    ensures IdleAfter(q, timeout, turns) <==> turns == MaxLife(q)
    ensures IdleAfter(q, timeout, turns) ==>
              Elapsed(timeout, turns) == MaxLife(q) + timeout + 2 && TickedTimes(q, turns) == []
  {
    if Silent(q, IdleDelay(timeout), turns) {
      TurnsAreExact(q, IdleDelay(timeout), turns);
    }
    SilentExists(q, IdleDelay(timeout));
    ListEmptiesExactly(q, turns);
  }

  /** The idle branch never fires while an entry is outstanding, for exactly these timeouts. */
  lemma IdleWaitsForEntries(timeout: U16)
    ensures (forall q, turns :: IdleAfter(q, timeout, turns) ==> TickedTimes(q, turns) == []) <==> timeout <= 65533
    ensures (forall q, turns :: IdleAfter(q, timeout, turns) ==>
               Elapsed(timeout, turns) == MaxLife(q) + timeout + 2) <==> timeout <= 65533
  {
    if timeout <= 65533 {
      forall q, turns | IdleAfter(q, timeout, turns)
        ensures TickedTimes(q, turns) == [] && Elapsed(timeout, turns) == MaxLife(q) + timeout + 2
      {
        IdleDeadline(q, timeout, turns);
      }
    } else {
      var entry := Outgoing(Built("t", [], false), 1, 0);
      assert IdleAfter([entry], timeout, 0) && TickedTimes([entry], 0) != [];
      assert IdleAfter([], timeout, 0) && MaxLife([]) == 0;
      assert Elapsed(timeout, 0) != MaxLife([]) + timeout + 2;
    }
  }
}
