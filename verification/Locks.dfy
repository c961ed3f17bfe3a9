/**
 Who waits for whom in one broker: the sessions and the Redis task share the registry mutex, the
 sessions feed the task's queue of 200 slots, and the bus reader feeds its inbox of 1024 slots.
 A session that writes waits for its peer to read, and a subscriber that is greeted with a retained
 message does so while it holds the mutex. The Redis task waits for Redis while it talks to it.
 */
module Locks {
  import opened Prelude

  const QUEUE_SLOTS: nat := 200
  const INBOX_SLOTS: nat := 1024

  datatype Purpose = ToPublish | ToSubscribe

  /**
   A session that publishes releases the mutex before it asks for a queue slot. `Greeting` writes the retained
   message to the peer under the mutex; `Writing` is any other write.
   */
  datatype Doing =
    | Free
    | WantsLock(purpose: Purpose)
    | HasLock(purpose: Purpose)
    | Greeting
    | Greeted
    | WantsSlot
    | Writing

  datatype Task = Selecting | TalkingToRedis | TaskWantsLock | TaskHasLock

  datatype Reader = Reading | ReaderWantsSlot

  /** `Peer(id)` is the client at the other end of session `id`'s stream. */
  datatype Party = Session(id: nat) | TheTask | TheReader | Peer(id: nat) | Redis

  datatype State = State(
    sessions: map<nat, Doing>,
    task: Task,
    reader: Reader,
    lock: Option<Party>,
    queued: nat,
    inbox: nat)

  const INIT := State(map[], Selecting, Reading, None, 0, 0)

  datatype Event =
    | Connect(id: nat)
    | Leave(id: nat)
    | Ask(id: nat, purpose: Purpose)
    | Lock(id: nat)
    | Greet(id: nat)
    | Unlock(id: nat)
    | Put(id: nat)
    | Write(id: nat)
    | PeerReads(id: nat)
    | WriteFails(id: nat)
    | TaskTakes
    | RedisAnswers
    | TaskHandles(echo: bool)
    | TaskLocks
    | TaskUnlocks
    | ReaderGets
    | ReaderPuts

  predicate Owns(d: Doing) {
    d.HasLock? || d.Greeting? || d.Greeted?
  }

  predicate Writes(d: Doing) {
    d.Greeting? || d.Writing?
  }

  function DoingOf(s: State, id: nat): Option<Doing> {
    if id in s.sessions then Some(s.sessions[id]) else None
  }

  predicate Enabled(s: State, e: Event) {
    match e
    case Connect(i) => i !in s.sessions
    case Leave(i) => DoingOf(s, i) == Some(Free)
    case Ask(i, _) => DoingOf(s, i) == Some(Free)
    case Lock(i) => i in s.sessions && s.sessions[i].WantsLock? && s.lock.None?
    case Greet(i) => DoingOf(s, i) == Some(HasLock(ToSubscribe))
    case Unlock(i) => i in s.sessions && (s.sessions[i].HasLock? || s.sessions[i].Greeted?)
    case Put(i) => DoingOf(s, i) == Some(WantsSlot) && s.queued < QUEUE_SLOTS
    case Write(i) => DoingOf(s, i) == Some(Free)
    case PeerReads(i) => i in s.sessions && Writes(s.sessions[i])
    case WriteFails(i) => i in s.sessions && Writes(s.sessions[i])
    case TaskTakes => s.task.Selecting? && s.queued > 0
    case RedisAnswers => s.task.TalkingToRedis?
    case TaskHandles(_) => s.task.Selecting? && s.inbox > 0
    case TaskLocks => s.task.TaskWantsLock? && s.lock.None?
    case TaskUnlocks => s.task.TaskHasLock?
    case ReaderGets => s.reader.Reading?
    case ReaderPuts => s.reader.ReaderWantsSlot? && s.inbox < INBOX_SLOTS
  }

  /** A failed write ends the session, which releases what it holds. */
  function Step(s: State, e: Event): State
    requires Enabled(s, e)
  {
    match e
    case Connect(i) => s.(sessions := s.sessions[i := Free])
    case Leave(i) => s.(sessions := s.sessions - {i})
    case Ask(i, purpose) => s.(sessions := s.sessions[i := WantsLock(purpose)])
    case Lock(i) => s.(sessions := s.sessions[i := HasLock(s.sessions[i].purpose)], lock := Some(Session(i)))
    case Greet(i) => s.(sessions := s.sessions[i := Greeting])
    case Unlock(i) =>
      s.(sessions := s.sessions[i := if s.sessions[i] == HasLock(ToPublish) then WantsSlot else Free], lock := None)
    case Put(i) => s.(sessions := s.sessions[i := Free], queued := s.queued + 1)
    case Write(i) => s.(sessions := s.sessions[i := Writing])
    case PeerReads(i) => s.(sessions := s.sessions[i := if s.sessions[i].Greeting? then Greeted else Free])
    case WriteFails(i) =>
      s.(sessions := s.sessions - {i}, lock := if s.sessions[i].Greeting? then None else s.lock)
    case TaskTakes => s.(task := TalkingToRedis, queued := s.queued - 1)
    case RedisAnswers => s.(task := Selecting)
    case TaskHandles(echo) => s.(task := if echo then Selecting else TaskWantsLock, inbox := s.inbox - 1)
    case TaskLocks => s.(task := TaskHasLock, lock := Some(TheTask))
    case TaskUnlocks => s.(task := Selecting, lock := None)
    case ReaderGets => s.(reader := ReaderWantsSlot)
    case ReaderPuts => s.(reader := Reading, inbox := s.inbox + 1)
  }

  /** Who takes a step: what a stream or Redis does is up to the other end. */
  function Actor(e: Event): Party {
    match e
    case PeerReads(i) => Peer(i)
    case WriteFails(i) => Peer(i)
    case RedisAnswers => Redis
    case TaskTakes => TheTask
    case TaskHandles(_) => TheTask
    case TaskLocks => TheTask
    case TaskUnlocks => TheTask
    case ReaderGets => TheReader
    case ReaderPuts => TheReader
    case _ => Session(e.id)
  }

  ghost predicate Runs(es: seq<Event>)
    decreases |es|, 0
  {
    es == [] || (Runs(es[..|es| - 1]) && Enabled(After(es[..|es| - 1]), es[|es| - 1]))
  }

  ghost function After(es: seq<Event>): State
    requires Runs(es)
    decreases |es|, 1
  {
    if es == [] then INIT else Step(After(es[..|es| - 1]), es[|es| - 1])
  }

  /** The mutex has exactly the owner that thinks it has it. */
  ghost predicate Inv(s: State) {
    && (forall i <- s.sessions :: Owns(s.sessions[i]) <==> s.lock == Some(Session(i)))
    && (s.lock.Some? ==> (s.lock.value.Session? && s.lock.value.id in s.sessions) || s.lock.value.TheTask?)
    && (s.task.TaskHasLock? <==> s.lock == Some(TheTask))
    && s.queued <= QUEUE_SLOTS && s.inbox <= INBOX_SLOTS
  }

  lemma StepKeepsInv(s: State, e: Event)
    requires Inv(s) && Enabled(s, e)
    ensures Inv(Step(s, e))
  {
  }

  lemma {:induction false} RunKeepsInv(es: seq<Event>)
    requires Runs(es)
    ensures Inv(After(es))
  {
    if es != [] {
      RunKeepsInv(es[..|es| - 1]);
      StepKeepsInv(After(es[..|es| - 1]), es[|es| - 1]);
    }
  }

  /** Whom a party waits for, if it cannot go on by itself. */
  function WaitsFor(s: State, p: Party): Option<Party> {
    match p
    case Session(i) =>
      if i !in s.sessions then None
      else if Writes(s.sessions[i]) then Some(Peer(i))
      else if s.sessions[i].WantsLock? then s.lock
      else if s.sessions[i].WantsSlot? && s.queued == QUEUE_SLOTS then Some(TheTask)
      else None
    case TheTask =>
      if s.task.TalkingToRedis? then Some(Redis) else if s.task.TaskWantsLock? then s.lock else None
    case TheReader => if s.reader.ReaderWantsSlot? && s.inbox == INBOX_SLOTS then Some(TheTask) else None
    case _ => None
  }

  // No circular wait.

  /** A chain of parties, each waiting for the next. */
  ghost predicate Chain(s: State, path: seq<Party>) {
    path != [] && forall i :: 0 <= i < |path| - 1 ==> WaitsFor(s, path[i]) == Some(path[i + 1])
  }

  function Rank(s: State, p: Party): nat {
    if WaitsFor(s, p).None? then 0
    else if p.TheTask? then 2
    else if p.Session? && p.id in s.sessions && Writes(s.sessions[p.id]) then 1
    else if p.Session? && p.id in s.sessions && s.sessions[p.id].WantsLock? then 2
    else 3
  }

  lemma WaitingLowersRank(s: State, p: Party)
    requires Inv(s) && WaitsFor(s, p).Some?
    ensures Rank(s, WaitsFor(s, p).value) < Rank(s, p)
  {
  }

  lemma {:induction false} ChainLowersRank(s: State, path: seq<Party>, i: nat, j: nat)
    requires Inv(s) && Chain(s, path) && i <= j < |path|
    ensures Rank(s, path[j]) + (j - i) <= Rank(s, path[i])
    decreases j
  {
    if i < j {
      ChainLowersRank(s, path, i, j - 1);
      assert WaitsFor(s, path[j - 1]) == Some(path[j - 1 + 1]);
      WaitingLowersRank(s, path[j - 1]);
    }
  }

  /** No circular wait: in every reachable state a chain of waiting parties has at most four members, all different. */
  lemma {:induction false} NoCircularWait(es: seq<Event>, path: seq<Party>)
    requires Runs(es) && Chain(After(es), path)
    ensures |path| <= 4
    ensures forall i, j :: 0 <= i < j < |path| ==> path[i] != path[j]
  {
    RunKeepsInv(es);
    ChainLowersRank(After(es), path, 0, |path| - 1);
    forall i, j | 0 <= i < j < |path| ensures path[i] != path[j] {
      ChainLowersRank(After(es), path, i, j);
    }
  }

  /**
   A session that waits for a queue slot waits exactly while 200 messages are queued, and holds nothing, so the task
   that empties the queue never waits for it.
   */
  lemma {:induction false} SlotWaitersHoldNothing(es: seq<Event>, id: nat)
    requires Runs(es) && DoingOf(After(es), id) == Some(WantsSlot)
    ensures After(es).lock != Some(Session(id)) && WaitsFor(After(es), TheTask) != Some(Session(id))
    ensures After(es).queued <= 200 && (WaitsFor(After(es), Session(id)) == Some(TheTask) <==> After(es).queued == 200)
  {
    RunKeepsInv(es);
  }

  /** The parties of the broker itself; peers and Redis are outside. */
  predicate Inside(p: Party) {
    p.Session? || p.TheTask? || p.TheReader?
  }

  /** A step that the actor can take and that waits for nobody. */
  function OwnStep(s: State, p: Party): Event {
    match p
    case Session(i) => Unlock(i)
    case Peer(i) => PeerReads(i)
    case Redis => RedisAnswers
    case _ =>
      if s.task.TaskHasLock? then TaskUnlocks
      else if s.task.TaskWantsLock? then TaskLocks
      else if s.queued > 0 then TaskTakes
      else TaskHandles(false)
  }

  /**
   Whoever a waiting party ultimately waits for can take a step of its own: the holder of the mutex can release it,
   or the task can go on, or else it is a peer that has to read or Redis that has to answer.
   */
  lemma {:induction false} WaitEnds(es: seq<Event>, p: Party) returns (path: seq<Party>)
    requires Runs(es) && WaitsFor(After(es), p).Some?
    ensures Chain(After(es), path) && path[0] == p && WaitsFor(After(es), path[|path| - 1]).None?
    ensures var last := path[|path| - 1];
            Enabled(After(es), OwnStep(After(es), last)) && Actor(OwnStep(After(es), last)) == last
  {
    RunKeepsInv(es);
    path := WaitEndsAt(After(es), p);
  }

  lemma {:induction false} WaitEndsAt(s: State, p: Party) returns (path: seq<Party>)
    requires Inv(s) && WaitsFor(s, p).Some?
    ensures Chain(s, path) && path[0] == p && WaitsFor(s, path[|path| - 1]).None?
    ensures Enabled(s, OwnStep(s, path[|path| - 1])) && Actor(OwnStep(s, path[|path| - 1])) == path[|path| - 1]
    decreases Rank(s, p)
  {
    var q := WaitsFor(s, p).value;
    WaitingLowersRank(s, p);
    if WaitsFor(s, q).None? {
      path := [p, q];
    } else {
      var rest := WaitEndsAt(s, q);
      path := [p] + rest;
      assert path[|path| - 1] == rest[|rest| - 1];
      forall i | 0 <= i < |path| - 1 ensures WaitsFor(s, path[i]) == Some(path[i + 1]) {
        if i > 0 { assert WaitsFor(s, rest[i - 1]) == Some(rest[i - 1 + 1]); }
      }
    }
  }

  // The mutex is held across a write to a peer.

  /** The holder is a subscriber that is being greeted. */
  ghost predicate HeldByGreeter(s: State) {
    s.lock.Some? && s.lock.value.Session? && DoingOf(s, s.lock.value.id) == Some(Greeting)
  }

  /** The holder of the mutex waits exactly if it is greeting, and then for its own peer and nobody else. */
  lemma {:induction false} HolderWaitsIffGreeting(es: seq<Event>, p: Party)
    requires Runs(es) && After(es).lock == Some(p)
    ensures WaitsFor(After(es), p).Some? <==> HeldByGreeter(After(es))
    ensures HeldByGreeter(After(es)) ==> WaitsFor(After(es), p) == Some(Peer(p.id))
  {
    RunKeepsInv(es);
  }

  /** A step of the broker's own that frees the mutex. */
  ghost predicate Frees(s: State, e: Event) {
    Enabled(s, e) && Inside(Actor(e)) && s.lock.Some? && Step(s, e).lock.None?
  }

  /** The broker can free the mutex by itself exactly if its holder is not greeting. */
  lemma {:induction false} FreeableIffNotGreeting(es: seq<Event>)
    requires Runs(es) && After(es).lock.Some?
    ensures (exists e :: Frees(After(es), e)) <==> !HeldByGreeter(After(es))
  {
    RunKeepsInv(es);
    var s := After(es);
    if !HeldByGreeter(s) {
      var e := if s.lock.value.Session? then Unlock(s.lock.value.id) else TaskUnlocks;
      assert Frees(s, e);
    }
  }

  /** The peer of session `id` neither reads nor breaks off. */
  ghost predicate Silent(es: seq<Event>, id: nat) {
    forall e <- es :: Actor(e) != Peer(id)
  }

  /** Nobody takes or releases the mutex. */
  ghost predicate MutexIdle(es: seq<Event>) {
    forall e <- es :: !e.Lock? && !e.Unlock? && !e.TaskLocks? && !e.TaskUnlocks?
  }

  lemma GreeterStays(s: State, e: Event, id: nat)
    requires Inv(s) && Enabled(s, e) && DoingOf(s, id) == Some(Greeting) && Actor(e) != Peer(id)
    ensures DoingOf(Step(s, e), id) == Some(Greeting) && MutexIdle([e])
  {
  }

  /**
   While a subscriber is greeted and its peer neither reads nor breaks off, whatever else happens, the session keeps
   the mutex and nobody else gets it: no session publishes or subscribes, and the task handles nothing from the bus.
   */
  lemma {:induction false} GreeterBlocksAll(es: seq<Event>, more: seq<Event>, id: nat)
    requires Runs(es) && Runs(es + more) && DoingOf(After(es), id) == Some(Greeting) && Silent(more, id)
    ensures DoingOf(After(es + more), id) == Some(Greeting) && After(es + more).lock == Some(Session(id))
    ensures MutexIdle(more)
    decreases |more|
  {
    if more == [] {
      assert es + more == es;
    } else {
      var init, last := more[..|more| - 1], more[|more| - 1];
      assert (es + more)[..|es + more| - 1] == es + init;
      GreeterBlocksAll(es, init, id);
      RunKeepsInv(es + init);
      GreeterStays(After(es + init), last, id);
      assert [last][0] == last;
    }
    RunKeepsInv(es + more);
  }

  // The bound on waiting is tight.

  lemma Next(es: seq<Event>, e: Event) returns (es': seq<Event>)
    requires Runs(es) && Enabled(After(es), e)
    ensures Runs(es') && After(es') == Step(After(es), e)
  {
    es' := es + [e];
    assert es'[..|es|] == es;
  }

  /** Session `a` publishes and asks for a queue slot. */
  lemma AsksForSlot(es: seq<Event>, a: nat) returns (es': seq<Event>)
    requires Runs(es) && DoingOf(After(es), a) == Some(Free) && After(es).lock.None?
    ensures Runs(es') && After(es') == After(es).(sessions := After(es).sessions[a := WantsSlot])
  {
    var sessions: map<nat, Doing> := After(es).sessions;
    es' := Next(es, Ask(a, ToPublish));
    es' := Next(es', Lock(a));
    es' := Next(es', Unlock(a));
    assert sessions[a := WantsLock(ToPublish)][a := HasLock(ToPublish)][a := WantsSlot] == sessions[a := WantsSlot];
  }

  /** One session alone fills the queue. */
  lemma {:induction false} FillsQueue(a: nat, n: nat) returns (es: seq<Event>)
    requires n <= 200
    ensures Runs(es) && After(es) == INIT.(sessions := map[a := Free], queued := n)
  {
    if n == 0 {
      assert Runs([]) && After([]) == INIT;
      es := Next([], Connect(a));
    } else {
      var before := FillsQueue(a, n - 1);
      es := AsksForSlot(before, a);
      es := Next(es, Put(a));
      assert map[a := Free][a := WantsSlot][a := Free] == map[a := Free];
    }
  }

  /** The task takes a foreign message from its inbox and asks for the mutex. */
  lemma TaskAsks(es: seq<Event>) returns (es': seq<Event>)
    requires Runs(es) && After(es).task.Selecting? && After(es).reader.Reading? && After(es).inbox == 0
    ensures Runs(es') && After(es') == After(es).(task := TaskWantsLock)
  {
    es' := Next(es, ReaderGets);
    es' := Next(es', ReaderPuts);
    es' := Next(es', TaskHandles(false));
  }

  /** A new session subscribes and is greeted. */
  lemma IsGreeted(es: seq<Event>, b: nat) returns (es': seq<Event>)
    requires Runs(es) && b !in After(es).sessions && After(es).lock.None?
    ensures Runs(es')
    ensures After(es') == After(es).(sessions := After(es).sessions[b := Greeting], lock := Some(Session(b)))
  {
    var sessions: map<nat, Doing> := After(es).sessions;
    es' := Next(es, Connect(b));
    es' := Next(es', Ask(b, ToSubscribe));
    es' := Next(es', Lock(b));
    es' := Next(es', Greet(b));
    assert sessions[b := Free][b := WantsLock(ToSubscribe)][b := HasLock(ToSubscribe)][b := Greeting] ==
           sessions[b := Greeting];
  }

  /** A subscriber can be greeted: one session is enough. */
  lemma GreeterReachable(id: nat) returns (es: seq<Event>)
    ensures Runs(es) && HeldByGreeter(After(es)) && DoingOf(After(es), id) == Some(Greeting)
  {
    assert Runs([]) && After([]) == INIT;
    es := IsGreeted([], id);
  }

  /**
   A chain of four is reachable for any two sessions: with the queue full a publisher waits for the task, the task
   for the mutex, its holder is a subscriber being greeted, and that waits for its peer.
   */
  lemma FourWait(a: nat, b: nat) returns (es: seq<Event>)
    requires a != b
    ensures Runs(es) && Chain(After(es), [Session(a), TheTask, Session(b), Peer(b)])
    ensures DoingOf(After(es), a) == Some(WantsSlot) && After(es).queued == 200
  {
    es := FillsQueue(a, 200);
    es := AsksForSlot(es, a);
    es := TaskAsks(es);
    es := IsGreeted(es, b);
    var path := [Session(a), TheTask, Session(b), Peer(b)];
    forall i | 0 <= i < |path| - 1 ensures WaitsFor(After(es), path[i]) == Some(path[i + 1]) {
      assert i == 0 || i == 1 || i == 2;
    }
  }
}
