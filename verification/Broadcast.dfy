/**
 The broadcast channel behind every topic, by its published contract: a bounded
 buffer that overwrites its oldest messages, a count of receivers, and receivers
 that each keep their own position.
 */
module Broadcast {

  const CAPACITY: nat := 1024

  /** `kept` holds the messages at positions `tail - |kept|` up to `tail`. */
  datatype Wire<T> = Wire(kept: seq<T>, tail: nat, receivers: nat)

  /** A receiver reads wire number `wire` and has consumed everything before `next`. */
  datatype Receiver = Receiver(wire: nat, next: nat)

  datatype Received<T> = Message(value: T) | Lagged(missed: nat) | Pending

  ghost predicate ValidWire<T>(w: Wire<T>) {
    |w.kept| == if w.tail < CAPACITY then w.tail else CAPACITY
  }

  /** The number of messages waiting for a receiver at `next`. */
  function Backlog<T>(w: Wire<T>, next: nat): nat {
    if next < w.tail then w.tail - next else 0
  }

  /** A send with no receivers fails and stores nothing. */
  function Send<T>(w: Wire<T>, m: T): Wire<T> {
    if w.receivers == 0 then w
    else
      var all := w.kept + [m];
      Wire(if |all| <= CAPACITY then all else all[|all| - CAPACITY..], w.tail + 1, w.receivers)
  }

  /** One receive: what it yields and the receiver's new position. */
  function Recv<T>(w: Wire<T>, next: nat): (Received<T>, nat) {
    var oldest := w.tail - |w.kept|;
    if w.tail <= next then (Pending, next)
    else if next < oldest then (Lagged(oldest - next), oldest)
    else (Message(w.kept[next - oldest]), next + 1)
  }

  /** Everything a receiver yields until it would block, if nothing more is sent. */
  function DrainTrace<T>(w: Wire<T>, next: nat): seq<Received<T>>
    decreases w.tail - next
  {
    if w.tail <= next then [] else [Recv(w, next).0] + DrainTrace(w, Recv(w, next).1)
  }

  function Messages<T>(s: seq<T>): seq<Received<T>> {
    seq(|s|, i requires 0 <= i < |s| => Message(s[i]))
  }

  function FromEnd<T>(s: seq<T>, i: nat): T
    requires 1 <= i <= |s|
  {
    s[|s| - i]
  }

  /** The messages still kept for a receiver at `next` are the end of the log. */
  ghost predicate Unread<T>(w: Wire<T>, next: nat, log: seq<T>) {
    forall i :: 1 <= i <= w.tail - next && i <= |w.kept| && i <= |log| ==> FromEnd(w.kept, i) == FromEnd(log, i)
  }

  lemma SendKeepsValid<T>(w: Wire<T>, m: T)
    requires ValidWire(w)
    ensures ValidWire(Send(w, m))
  {
  }

  lemma {:induction false} DrainWithoutLag<T>(w: Wire<T>, next: nat)
    requires ValidWire(w) && w.tail - |w.kept| <= next <= w.tail
    ensures DrainTrace(w, next) == Messages(w.kept[next - (w.tail - |w.kept|)..])
    decreases w.tail - next
  {
    if next < w.tail {
      DrainWithoutLag(w, next + 1);
    }
  }

  /** The last `m` messages kept for a receiver are the last `m` of the log. */
  lemma UnreadEnd<T>(w: Wire<T>, next: nat, log: seq<T>, m: nat)
    requires Unread(w, next, log) && next + m <= w.tail && m <= |w.kept| && m <= |log|
    ensures w.kept[|w.kept| - m..] == log[|log| - m..]
  {
    var kept, logged := w.kept[|w.kept| - m..], log[|log| - m..];
    forall i | 0 <= i < m ensures kept[i] == logged[i] {
      assert FromEnd(w.kept, m - i) == FromEnd(log, m - i);
    }
  }

  lemma DrainAfterLag<T>(w: Wire<T>, next: nat)
    requires ValidWire(w) && next + CAPACITY < w.tail
    ensures DrainTrace(w, next) == [Lagged(w.tail - next - CAPACITY)] + DrainTrace(w, w.tail - CAPACITY)
  {
    assert Recv(w, next) == (Lagged(w.tail - next - CAPACITY), w.tail - CAPACITY);
  }

  /** The trace of a receiver with `n` messages waiting, given the log they come from. */
  function DrainOf<T>(n: nat, log: seq<T>): seq<Received<T>>
    requires n <= |log|
  {
    if n <= CAPACITY then Messages(log[|log| - n..])
    else [Lagged(n - CAPACITY)] + Messages(log[|log| - CAPACITY..])
  }

  lemma QuiescentDrain<T>(w: Wire<T>, next: nat, log: seq<T>)
    requires ValidWire(w) && next <= w.tail && Backlog(w, next) <= |log| && Unread(w, next, log)
    ensures DrainTrace(w, next) == DrainOf(Backlog(w, next), log)
  {
    if w.tail - next <= CAPACITY {
      UnreadEnd(w, next, log, w.tail - next);
      DrainWithoutLag(w, next);
    } else {
      UnreadEnd(w, next, log, CAPACITY);
      DrainWithoutLag(w, w.tail - CAPACITY);
      DrainAfterLag(w, next);
    }
  }

  /**
   A backlog of n messages, left alone, yields exactly its last min(n, 1024) messages in order: n receives if n is at
   most 1024, otherwise one lag report and 1024 more.
   */
  lemma QuiescentCount<T>(w: Wire<T>, next: nat, log: seq<T>)
    requires ValidWire(w) && next <= w.tail && Backlog(w, next) <= |log| && Unread(w, next, log)
    ensures var n, trace := w.tail - next, DrainTrace(w, next);
            if n <= 1024 then trace == Messages(log[|log| - n..]) && |trace| == n
            else trace == [Lagged(n - 1024)] + Messages(log[|log| - 1024..]) && |trace| == 1025
  {
    QuiescentDrain(w, next, log);
  }
}
