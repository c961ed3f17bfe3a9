/** The broker's side of the synchronisation through Redis, and the load at start-up. */
module RedisSync {
  import opened Prelude
  import opened Packets
  import opened Broadcast
  import opened Topics
  import Broker

  datatype RedisMessage = RedisMessage(senderId: string, topic: Topic, payload: Payload, qos: QoS, retain: bool)

  /** The key under which a topic's retained message is stored. */
  function Key(topic: Topic): string {
    "retain:" + topic
  }

  lemma KeyInjective(a: Topic, b: Topic)
    requires Key(a) == Key(b)
    ensures a == b
  {
    assert Key(a)[7..] == a && Key(b)[7..] == b;
  }

  /** Every stored message lies under the key of its own topic. */
  ghost predicate StoreOk(store: map<string, RedisMessage>) {
    forall k <- store :: k == Key(store[k].topic)
  }

  /** The store after a SET of message `m` under its own key. */
  function Stored(store: map<string, RedisMessage>, m: RedisMessage): map<string, RedisMessage> {
    store[Key(m.topic) := m]
  }

  /** The store after the SETs of all brokers so far, in the order in which Redis took them. */
  function StoreAfter(saves: seq<RedisMessage>): map<string, RedisMessage> {
    if saves == [] then map[] else Stored(StoreAfter(saves[..|saves| - 1]), saves[|saves| - 1])
  }

  lemma {:induction false} SavesKeepStoreOk(saves: seq<RedisMessage>)
    ensures StoreOk(StoreAfter(saves))
  {
    if saves != [] {
      SavesKeepStoreOk(saves[..|saves| - 1]);
    }
  }

  /**
   One GET of the load: its key, the store at that moment, whether the reply can be read, and whether the packet
   builder accepts what was read.
   */
  datatype Get = Get(key: string, store: map<string, RedisMessage>, readable: bool, builds: bool)

  predicate Answered(g: Get) {
    g.readable && g.key in g.store
  }

  function Reply(g: Get): Option<RedisMessage> {
    if Answered(g) then Some(g.store[g.key]) else None
  }

  function Replies(gets: seq<Get>): seq<Option<RedisMessage>> {
    seq(|gets|, i requires 0 <= i < |gets| => Reply(gets[i]))
  }

  /** The keys are distinct, and every store is one that SETs of brokers produce. */
  ghost predicate Sound(gets: seq<Get>) {
    && (forall i, j :: 0 <= i < j < |gets| ==> gets[i].key != gets[j].key)
    && (forall i :: 0 <= i < |gets| ==> StoreOk(gets[i].store))
  }

  /** Whatever is saved between the GETs, each sees a store that SETs produced. */
  lemma SavesAreSound(gets: seq<Get>, saves: seq<RedisMessage>, at: seq<nat>)
    requires forall i, j :: 0 <= i < j < |gets| ==> gets[i].key != gets[j].key
    requires |at| == |gets| && forall i :: 0 <= i < |at| ==> at[i] <= |saves|
    requires forall i :: 0 <= i < |gets| ==> gets[i].store == StoreAfter(saves[..at[i]])
    ensures Sound(gets)
  {
    forall i | 0 <= i < |gets| ensures StoreOk(gets[i].store) {
      SavesKeepStoreOk(saves[..at[i]]);
    }
  }

  /** No two readable messages are for the same topic. */
  ghost predicate NoClash(replies: seq<Option<RedisMessage>>) {
    forall i, j :: 0 <= i < j < |replies| && replies[i].Some? && replies[j].Some? ==>
      replies[i].value.topic != replies[j].value.topic
  }

  /** Distinct keys of stores that keep every message under its own key cannot answer with one topic twice. */
  lemma SoundDoesNotClash(gets: seq<Get>)
    requires Sound(gets)
    ensures NoClash(Replies(gets))
  {
    forall i, j | 0 <= i < j < |gets| && Replies(gets)[i].Some? && Replies(gets)[j].Some?
      ensures Replies(gets)[i].value.topic != Replies(gets)[j].value.topic
    {
      assert gets[i].key == Key(Reply(gets[i]).value.topic) && gets[j].key == Key(Reply(gets[j]).value.topic);
    }
  }

  /** The topics of the readable messages. */
  function Names(replies: seq<Option<RedisMessage>>): set<Topic> {
    if replies == [] then {}
    else
      var last := replies[|replies| - 1];
      Names(replies[..|replies| - 1]) + if last.Some? then {last.value.topic} else {}
  }

  lemma {:induction false} NamesMember(replies: seq<Option<RedisMessage>>, t: Topic)
    ensures t in Names(replies) <==> exists i :: 0 <= i < |replies| && replies[i].Some? && replies[i].value.topic == t
  {
    if replies != [] {
      var n := |replies| - 1;
      NamesMember(replies[..n], t);
      if i :| 0 <= i < n && replies[..n][i].Some? && replies[..n][i].value.topic == t {
        assert replies[i].value.topic == t;
      }
    }
  }

  /** The registry holds exactly the readable topics, each with its stored payload and no receivers. */
  ghost predicate LoadedFrom(r: Registry, replies: seq<Option<RedisMessage>>) {
    && r.channels.Keys == Names(replies)
    && (forall i :: 0 <= i < |replies| && replies[i].Some? ==>
          var m := replies[i].value;
          m.topic in r.channels && r.channels[m.topic].retained == Some(Built(m.topic, m.payload, false)))
    && Broker.Booted(r)
  }

  /** Get `i` was answered with the stored message of topic `t`. */
  ghost predicate Answers(gets: seq<Get>, i: int, t: Topic) {
    0 <= i < |gets| && gets[i].key == Key(t) && Answered(gets[i])
  }

  /**
   The registry in terms of the stores: a topic is there if and only if the GET of its key was answered,
   it retains the payload stored under that key at that moment, and nobody listens yet.
   */
  ghost predicate LoadedStore(r: Registry, gets: seq<Get>) {
    && (forall t :: t in r.channels <==> exists i :: Answers(gets, i, t))
    && (forall t, i :: Answers(gets, i, t) ==>
          Retained(r, t) == Some(PublishPacket(t, gets[i].store[gets[i].key].payload, AtMostOnce, false, None, None)))
    && Broker.Booted(r)
  }

  lemma RepliesAreStores(r: Registry, gets: seq<Get>)
    requires Sound(gets) && LoadedFrom(r, Replies(gets))
    ensures LoadedStore(r, gets)
  {
    var replies := Replies(gets);
    forall t, i | Answers(gets, i, t)
      ensures t in r.channels
      ensures var payload := gets[i].store[gets[i].key].payload;
              Retained(r, t) == Some(PublishPacket(t, payload, AtMostOnce, false, None, None))
    {
      assert replies[i] == Some(gets[i].store[gets[i].key]);
      KeyInjective(t, replies[i].value.topic);
    }
    forall t | t in r.channels ensures exists i :: Answers(gets, i, t) {
      NamesMember(replies, t);
      var i :| 0 <= i < |replies| && replies[i].Some? && replies[i].value.topic == t;
      assert replies[i] == Reply(gets[i]);
      assert Answers(gets, i, t);
    }
  }

  /** The GETs cover a store that nobody changes meanwhile, and all replies can be read. */
  ghost predicate Covers(gets: seq<Get>, store: map<string, RedisMessage>) {
    && (forall i :: 0 <= i < |gets| ==> gets[i].store == store && gets[i].readable)
    && (forall k <- store :: exists i :: 0 <= i < |gets| && gets[i].key == k)
  }

  /** Then the registry is the store: the same topics, each with its stored payload. */
  lemma QuietLoad(r: Registry, gets: seq<Get>, store: map<string, RedisMessage>)
    requires LoadedStore(r, gets) && Covers(gets, store)
    ensures forall t :: t in r.channels <==> Key(t) in store
    ensures forall t <- r.channels ::
              Retained(r, t) == Some(PublishPacket(t, store[Key(t)].payload, AtMostOnce, false, None, None))
  {
    forall t ensures t in r.channels <==> Key(t) in store {
      if Key(t) in store {
        var i :| 0 <= i < |gets| && gets[i].key == Key(t);
        assert Answers(gets, i, t);
      }
    }
    forall t | t in r.channels
      ensures Retained(r, t) == Some(PublishPacket(t, store[Key(t)].payload, AtMostOnce, false, None, None))
    {
      var i :| Answers(gets, i, t);
    }
  }

  /** The registry after one message is loaded into a new topic. */
  function LoadOne(r: Registry, m: RedisMessage): Registry {
    Registry(r.channels[m.topic := Channel(|r.wires|, Some(Built(m.topic, m.payload, false)))], r.wires + [NewWire(0)])
  }

  lemma LoadStep(r: Registry, replies: seq<Option<RedisMessage>>, m: RedisMessage)
    requires LoadedFrom(r, replies) && m.topic !in r.channels
    ensures LoadedFrom(LoadOne(r, m), replies + [Some(m)])
  {
    var r', all := LoadOne(r, m), replies + [Some(m)];
    assert all[..|replies|] == replies;
    forall i | 0 <= i < |all| && all[i].Some?
      ensures var n := all[i].value;
              n.topic in r'.channels && r'.channels[n.topic].retained == Some(Built(n.topic, n.payload, false))
    {
      if i < |replies| { assert replies[i].value.topic in r.channels; }
    }
  }

  lemma SkipStep(r: Registry, replies: seq<Option<RedisMessage>>)
    requires LoadedFrom(r, replies)
    ensures LoadedFrom(r, replies + [None])
  {
    assert (replies + [None])[..|replies|] == replies;
  }

  /** Whether the next reply clashes is whether its topic is loaded already. */
  lemma ClashStep(replies: seq<Option<RedisMessage>>, i: nat)
    requires i < |replies| && NoClash(replies[..i])
    ensures replies[i].Some? && replies[i].value.topic in Names(replies[..i]) ==> !NoClash(replies)
    ensures replies[i].None? || replies[i].value.topic !in Names(replies[..i]) ==> NoClash(replies[..i + 1])
  {
    if replies[i].Some? {
      NamesMember(replies[..i], replies[i].value.topic);
    }
  }

  function LoadReply(r: Registry, reply: Option<RedisMessage>): Registry {
    if reply.Some? then LoadOne(r, reply.value) else r
  }

  /** The registry after the load of all replies. */
  function Loaded(replies: seq<Option<RedisMessage>>): Registry {
    if replies == [] then Registry(map[], [])
    else LoadReply(Loaded(replies[..|replies| - 1]), replies[|replies| - 1])
  }

  lemma LoadedSnoc(replies: seq<Option<RedisMessage>>, i: nat)
    requires i < |replies|
    ensures Loaded(replies[..i + 1]) == LoadReply(Loaded(replies[..i]), replies[i])
  {
    assert replies[..i + 1][..i] == replies[..i];
  }

  /** The registry after a message from the bus: a broker drops its own. */
  function AfterMessage(r: Registry, m: RedisMessage, own: string): Registry {
    if m.senderId == own then r else Published(r, Built(m.topic, m.payload, m.retain))
  }

  /** A foreign message of any kind is published like a packet with its topic, payload and retain flag. */
  lemma ForeignIsTaken(r: Registry, m: RedisMessage, own: string)
    requires ValidRegistry(r)
    ensures m.senderId != own ==>
              Takes(r, AfterMessage(r, m, own), PublishPacket(m.topic, m.payload, AtMostOnce, m.retain, None, None))
    ensures m.senderId == own ==> AfterMessage(r, m, own) == r
  {
    PublishedTakes(r, PublishPacket(m.topic, m.payload, AtMostOnce, m.retain, None, None));
  }

  /** What one broker sends and another handles is the publish itself; its own sender does nothing with it. */
  lemma RoundTrip(client: RedisClient, p: PublishPacket, r: Registry, own: string)
    requires ValidRegistry(r)
    ensures var after := AfterMessage(r, client.Outgoing(p), own);
            if own == client.senderId then after == r
            else Takes(r, after, PublishPacket(p.topic, p.payload, AtMostOnce, p.retain, None, None))
  {
    ForeignIsTaken(r, client.Outgoing(p), own);
  }

  /** Redis itself: what was published on the bus and what is stored. */
  class Redis {
    var bus: seq<RedisMessage>
    var store: map<string, RedisMessage>
  }

  class RedisClient {
    const senderId: string
    const topics: Topics
    const redis: Redis

    constructor (senderId: string, topics: Topics, redis: Redis)
      ensures this.senderId == senderId && this.topics == topics && this.redis == redis
    {
      this.senderId := senderId;
      this.topics := topics;
      this.redis := redis;
    }

    function Outgoing(p: PublishPacket): RedisMessage {
      RedisMessage(senderId, p.topic, p.payload, p.qos, p.retain)
    }

    /** PUBLISH, then SET if retained; a failing command is ignored. The registry is not involved. */
    method Publish(p: PublishPacket, publishWorks: bool, setWorks: bool)
      requires StoreOk(redis.store)
      modifies redis
      ensures StoreOk(redis.store)
      ensures redis.bus == old(redis.bus) + if publishWorks then [Outgoing(p)] else []
      ensures redis.store == if p.retain && setWorks then Stored(old(redis.store), Outgoing(p)) else old(redis.store)
      ensures publishWorks ==>
                |redis.bus| == |old(redis.bus)| + 1 && redis.bus[..|old(redis.bus)|] == old(redis.bus) &&
                redis.bus[|old(redis.bus)|] == RedisMessage(senderId, p.topic, p.payload, p.qos, p.retain)
      ensures p.retain && setWorks ==>
                redis.store ==
                old(redis.store)["retain:" + p.topic := RedisMessage(senderId, p.topic, p.payload, p.qos, true)]
      ensures !publishWorks ==> redis.bus == old(redis.bus)
      ensures !(p.retain && setWorks) ==> redis.store == old(redis.store)
    {
      var m := Outgoing(p);
      if publishWorks {
        redis.bus := redis.bus + [m];
      }
      if p.retain {
        if setWorks {
          redis.store := Stored(redis.store, m);
        }
      }
    }

    /**
     A broker drops its own messages; any other one is published locally and goes nowhere else. The task panics,
     with nothing done, on a text that is no message and on one that the packet builder refuses.
     */
    method HandleMessage(text: Option<RedisMessage>, builds: bool) returns (alive: bool)
      requires topics.Valid()
      modifies topics
      ensures topics.Valid() && (alive <==> text.Some? && (text.value.senderId == senderId || builds))
      ensures topics.State() ==
              if alive then AfterMessage(old(topics.State()), text.value, senderId) else old(topics.State())
      ensures alive && text.value.senderId == senderId ==> topics.State() == old(topics.State())
      ensures alive && text.value.senderId != senderId ==>
                var m := text.value;
                Takes(old(topics.State()), topics.State(),
                      PublishPacket(m.topic, m.payload, AtMostOnce, m.retain, None, None))
      ensures alive ==>
                var m, was := text.value, old(RetainedMap(topics.State()));
                RetainedMap(topics.State()) ==
                if m.senderId != senderId && m.retain then was[m.topic := Built(m.topic, m.payload, true)] else was
    {
      if text.None? {
        return false;
      }
      var m := text.value;
      if m.senderId == senderId {
        return true;
      }
      if !builds {
        return false;
      }
      var packet := Built(m.topic, m.payload, m.retain);
      PublishedRetainedMap(topics.State(), packet);
      ForeignIsTaken(topics.State(), m, senderId);
      var _ := topics.Publish(packet);
      alive := true;
    }

    /** One stored message becomes a topic of its own; false if the topic is known, which panics. */
    method LoadMessage(m: RedisMessage) returns (added: bool)
      requires topics.Valid()
      modifies topics
      ensures added <==> m.topic !in old(topics.channels)
      ensures added ==> topics.State() == LoadOne(old(topics.State()), m)
    {
      var receiver := topics.Add(m.topic);
      if receiver.Err? {
        return false;
      }
      topics.Drop(receiver.value);
      var packet := Built(m.topic, m.payload, false);
      topics.channels := topics.channels[m.topic := topics.channels[m.topic].(retained := Some(packet))];
      added := true;
    }

    /**
     The load at start-up: the keys are listed, and there is one GET per key while other brokers may save. It panics
     exactly when the keys cannot be listed, the packet builder refuses a message or two readable messages have the
     same topic; no stores of this system produce the last. Otherwise the registry holds exactly what was read.
     */
    method GetAllRetainedMessages(listed: bool, gets: seq<Get>) returns (finished: bool)
      requires topics.State() == Registry(map[], [])
      modifies topics
      ensures finished <==>
              listed && (forall g <- gets :: g.readable && g.key in g.store ==> g.builds) && NoClash(Replies(gets))
      ensures finished ==> LoadedFrom(topics.State(), Replies(gets)) && topics.State() == Loaded(Replies(gets))
      ensures Sound(gets) ==> (finished <==> listed && forall g <- gets :: g.readable && g.key in g.store ==> g.builds)
      ensures Sound(gets) && finished ==> LoadedStore(topics.State(), gets)
    {
      if Sound(gets) { SoundDoesNotClash(gets); }
      if !listed {
        return false;
      }
      ghost var replies := Replies(gets);
      var i := 0;
      while i < |gets|
        invariant 0 <= i <= |gets| && topics.State() == Loaded(replies[..i])
        invariant LoadedFrom(topics.State(), replies[..i]) && NoClash(replies[..i])
        invariant forall j :: 0 <= j < i && gets[j].readable && gets[j].key in gets[j].store ==> gets[j].builds
      {
        ClashStep(replies, i);
        var loaded := LoadNext(gets[i], replies, i);
        if !loaded {
          return false;
        }
        i := i + 1;
      }
      assert replies[..i] == replies;
      if Sound(gets) { RepliesAreStores(topics.State(), gets); }
      finished := true;
    }

    /** One GET and what it loads; false if that panics. */
    method LoadNext(g: Get, ghost replies: seq<Option<RedisMessage>>, ghost i: nat) returns (loaded: bool)
      requires i < |replies| && replies[i] == Reply(g)
      requires LoadedFrom(topics.State(), replies[..i]) && topics.State() == Loaded(replies[..i])
      modifies topics
      ensures loaded <==>
              (g.readable && g.key in g.store ==> g.builds && g.store[g.key].topic !in Names(replies[..i]))
      ensures loaded ==>
                LoadedFrom(topics.State(), replies[..i + 1]) && topics.State() == Loaded(replies[..i + 1])
    {
      assert replies[..i + 1] == replies[..i] + [replies[i]];
      LoadedSnoc(replies, i);
      ghost var before := topics.State();
      var reply := Reply(g);
      if reply.None? {
        SkipStep(before, replies[..i]);
        return true;
      }
      if !g.builds {
        return false;
      }
      loaded := LoadMessage(reply.value);
      if loaded {
        LoadStep(before, replies[..i], reply.value);
      }
    }
  }
}
