/**
 The topic registry: a map from topic names to a broadcast sender and a retained
 message, shared by every session and by the Redis task under one mutex.

 The wires live beside the map because receivers keep reading their wire even when
 the registry no longer knows it.
 */
module Topics {
  import opened Prelude
  import opened Packets
  import opened Broadcast

  /** `sender` is the number of the wire that publishes to this topic go to. */
  datatype Channel = Channel(sender: nat, retained: Option<PublishPacket>)

  datatype Registry = Registry(channels: map<Topic, Channel>, wires: seq<Wire<PublishPacket>>)

  datatype Error = TopicAlreadyExists(name: Topic) | NoReceiversFound

  // Specification of the operations, on values.

  function NewWire(receivers: nat): Wire<PublishPacket> {
    Wire([], 0, receivers)
  }

  /** The new channel goes in even when it replaces one; then its only receiver is dropped. */
  function Added(r: Registry, name: Topic): Registry {
    Registry(r.channels[name := Channel(|r.wires|, None)],
             r.wires + [NewWire(if name in r.channels then 0 else 1)])
  }

  function Subscribed(r: Registry, name: Topic): Registry {
    if name in r.channels && r.channels[name].sender < |r.wires| then
      var i := r.channels[name].sender;
      r.(wires := r.wires[i := r.wires[i].(receivers := r.wires[i].receivers + 1)])
    else
      Added(r, name)
  }

  /** The receiver handed out by a subscription: it starts at the current tail. */
  function NewReceiver(r: Registry, name: Topic): Receiver {
    if name in r.channels && r.channels[name].sender < |r.wires| then
      Receiver(r.channels[name].sender, r.wires[r.channels[name].sender].tail)
    else
      Receiver(|r.wires|, 0)
  }

  function Dropped(r: Registry, receiver: Receiver): Registry {
    if receiver.wire < |r.wires| && r.wires[receiver.wire].receivers > 0 then
      var w := r.wires[receiver.wire];
      r.(wires := r.wires[receiver.wire := w.(receivers := w.receivers - 1)])
    else
      r
  }

  function Sent(r: Registry, p: PublishPacket): Registry {
    if p.topic in r.channels && r.channels[p.topic].sender < |r.wires| then
      var i := r.channels[p.topic].sender;
      r.(wires := r.wires[i := Send(r.wires[i], p)])
    else
      Registry(r.channels[p.topic := Channel(|r.wires|, None)], r.wires + [NewWire(0)])
  }

  function Published(r: Registry, p: PublishPacket): Registry {
    var s := Sent(r, p);
    if p.retain then s.(channels := s.channels[p.topic := s.channels[p.topic].(retained := Some(p))]) else s
  }

  function Retained(r: Registry, name: Topic): Option<PublishPacket> {
    if name in r.channels then r.channels[name].retained else None
  }

  /** Senders are existing wires, and no two topics share one. */
  ghost predicate ValidRegistry(r: Registry) {
    && (forall t <- r.channels :: r.channels[t].sender < |r.wires|)
    && (forall t <- r.channels, u <- r.channels :: r.channels[t].sender == r.channels[u].sender ==> t == u)
    && (forall i :: 0 <= i < |r.wires| ==> ValidWire(r.wires[i]))
  }

  lemma SubscribedValid(r: Registry, name: Topic)
    requires ValidRegistry(r)
    ensures ValidRegistry(Subscribed(r, name))
  {
  }

  lemma DroppedValid(r: Registry, x: Receiver)
    requires ValidRegistry(r)
    ensures ValidRegistry(Dropped(r, x))
  {
  }

  lemma SentValid(r: Registry, p: PublishPacket)
    requires ValidRegistry(r)
    ensures ValidRegistry(Sent(r, p)) && p.topic in Sent(r, p).channels
  {
  }

  lemma PublishedValid(r: Registry, p: PublishPacket)
    requires ValidRegistry(r)
    ensures ValidRegistry(Published(r, p))
  {
    SentValid(r, p);
  }

  /** A publish moves no topic to another wire and sends on its own topic's wire only. */
  lemma PublishedChannel(r: Registry, p: PublishPacket, t: Topic)
    requires ValidRegistry(r) && t in r.channels
    ensures var after := Published(r, p);
            && t in after.channels && after.channels[t].sender == r.channels[t].sender
            && after.wires[r.channels[t].sender] ==
               if t == p.topic then Send(r.wires[r.channels[t].sender], p) else r.wires[r.channels[t].sender]
  {
  }

  /** A subscription moves no topic to another wire and counts on its own topic's wire only. */
  lemma SubscribedChannel(r: Registry, name: Topic, t: Topic)
    requires ValidRegistry(r) && (t in r.channels || t == name)
    ensures var after := Subscribed(r, name);
            && t in after.channels && after.channels[t].sender < |after.wires|
            && after.channels[t] == (if t in r.channels then r.channels[t] else Channel(|r.wires|, None))
            && var was := if t in r.channels then r.wires[r.channels[t].sender] else NewWire(0);
               after.wires[after.channels[t].sender] == if t == name then was.(receivers := was.receivers + 1) else was
    ensures t == name ==>
              var after := Subscribed(r, name);
              NewReceiver(r, name) == Receiver(after.channels[t].sender, after.wires[after.channels[t].sender].tail)
  {
  }

  /**
   `add` fails exactly on a known topic, and then it has already replaced the channel:
   no receiver of the old wire gets any later publish to that name, nobody listens to
   the new one, and the retained message is gone.
   */
  lemma AddStrandsReceivers(r: Registry, x: Receiver, p: PublishPacket)
    requires ValidRegistry(r) && p.topic in r.channels
    requires x.wire == r.channels[p.topic].sender
    ensures Retained(Added(r, p.topic), p.topic) == None
    ensures var after := Published(Added(r, p.topic), p);
            after.channels[p.topic].sender == |r.wires| && after.wires == r.wires + [Wire([], 0, 0)]
    ensures var after := Published(Added(r, p.topic), p);
            x.wire < |after.wires| && after.wires[x.wire] == r.wires[x.wire]
    ensures r.wires[x.wire].receivers > 0 ==> Published(r, p).wires[x.wire].tail == r.wires[x.wire].tail + 1
  {
  }

  /** A receiver of a known topic hears the next publish to it. */
  ghost predicate StillHears(r: Registry, x: Receiver, p: PublishPacket) {
    x.wire < |r.wires| && x.wire < |Published(r, p).wires| &&
    Published(r, p).wires[x.wire] == Send(r.wires[x.wire], p)
  }

  /**
   When `add` is harmless: it keeps every channel with its retained message if and only if the name was
   unknown, and every live receiver goes on hearing its topic if and only if the name had none.
   */
  lemma AddHarmlessIffUnknown(r: Registry, name: Topic)
    requires ValidRegistry(r)
    ensures (forall t <- r.channels :: Added(r, name).channels[t] == r.channels[t]) <==> name !in r.channels
    ensures (forall x: Receiver, p: PublishPacket ::
               p.topic in r.channels && x.wire == r.channels[p.topic].sender && r.wires[x.wire].receivers > 0 ==>
                 StillHears(Added(r, name), x, p)) <==>
            (name in r.channels ==> r.wires[r.channels[name].sender].receivers == 0)
  {
    forall x: Receiver, p: PublishPacket |
      p.topic in r.channels && x.wire == r.channels[p.topic].sender && r.wires[x.wire].receivers > 0
      ensures StillHears(Added(r, name), x, p) <==> p.topic != name
    {
      if p.topic == name { AddStrandsReceivers(r, x, p); }
    }
    if name in r.channels && r.wires[r.channels[name].sender].receivers > 0 {
      var x, p := Receiver(r.channels[name].sender, 0), Built(name, [], false);
      assert !StillHears(Added(r, name), x, p);
    }
  }

  lemma PublishedRetained(r: Registry, p: PublishPacket, t: Topic)
    requires ValidRegistry(r)
    ensures Retained(Published(r, p), t) == if p.retain && t == p.topic then Some(p) else Retained(r, t)
  {
  }

  /** The wire of a known topic took `p`: its listeners find it last, and without listeners nothing happened. */
  ghost predicate WireTakes(before: Wire<PublishPacket>, after: Wire<PublishPacket>, p: PublishPacket) {
    if before.receivers == 0 then after == before
    else
      && after.receivers == before.receivers && after.tail == before.tail + 1
      && |after.kept| == (if |before.kept| < 1024 then |before.kept| + 1 else 1024)
      && after.kept == before.kept[|before.kept| - (|after.kept| - 1)..] + [p]
  }

  /**
   Registry `after` took the publish `p`, retain-flagged or not: a known topic keeps its wire, which takes the packet;
   an unknown one is created on an empty wire that nobody hears; the packet is retained exactly if it is flagged;
   all else is as it was.
   */
  ghost predicate Takes(r: Registry, after: Registry, p: PublishPacket) {
    && p.topic in after.channels
    && after.channels.Keys == r.channels.Keys + {p.topic}
    && (forall t <- r.channels :: t != p.topic ==> after.channels[t] == r.channels[t])
    && TakesOn(r, after, p, after.channels[p.topic].sender)
    && after.channels[p.topic].retained ==
       (if p.retain then Some(p) else if p.topic in r.channels then r.channels[p.topic].retained else None)
  }

  /** The same for the wires: `i` is the wire of the packet's topic. */
  ghost predicate TakesOn(r: Registry, after: Registry, p: PublishPacket, i: nat) {
    && |r.wires| <= |after.wires| && i < |after.wires|
    && (forall j :: 0 <= j < |r.wires| && j != i ==> after.wires[j] == r.wires[j])
    && (if p.topic in r.channels then
          i == r.channels[p.topic].sender && |after.wires| == |r.wires| && WireTakes(r.wires[i], after.wires[i], p)
        else
          i == |r.wires| && |after.wires| == |r.wires| + 1 && after.wires[i] == Wire([], 0, 0))
  }

  lemma SendTakes(w: Wire<PublishPacket>, p: PublishPacket)
    requires ValidWire(w)
    ensures WireTakes(w, Send(w, p), p)
  {
  }

  lemma SentTakesKnown(r: Registry, p: PublishPacket)
    requires ValidRegistry(r) && p.topic in r.channels
    ensures Sent(r, p).channels == r.channels && TakesOn(r, Sent(r, p), p, r.channels[p.topic].sender)
  {
    SendTakes(r.wires[r.channels[p.topic].sender], p);
  }

  lemma SentTakesNew(r: Registry, p: PublishPacket)
    requires p.topic !in r.channels
    ensures Sent(r, p).channels == r.channels[p.topic := Channel(|r.wires|, None)]
    ensures TakesOn(r, Sent(r, p), p, |r.wires|)
  {
  }

  lemma PublishedTakes(r: Registry, p: PublishPacket)
    requires ValidRegistry(r)
    ensures Takes(r, Published(r, p), p)
  {
    if p.topic in r.channels { SentTakesKnown(r, p); } else { SentTakesNew(r, p); }
    assert Published(r, p).wires == Sent(r, p).wires;
  }

  /** What the cluster sees of a registry: its retained messages. */
  ghost function RetainedMap(r: Registry): map<Topic, PublishPacket> {
    map t | t in r.channels && Retained(r, t).Some? :: Retained(r, t).value
  }

  /** The map says nothing more than the single topics do. */
  lemma RetainedMapPut(r: Registry, after: Registry, p: PublishPacket)
    requires forall t :: Retained(after, t) == if p.retain && t == p.topic then Some(p) else Retained(r, t)
    ensures RetainedMap(after) == if p.retain then RetainedMap(r)[p.topic := p] else RetainedMap(r)
  {
    forall t ensures t in RetainedMap(after) <==> (p.retain && t == p.topic) || t in RetainedMap(r) {
      assert t in RetainedMap(after) <==> Retained(after, t).Some?;
      assert t in RetainedMap(r) <==> Retained(r, t).Some?;
    }
  }

  lemma PublishedRetainedMap(r: Registry, p: PublishPacket)
    requires ValidRegistry(r)
    ensures RetainedMap(Published(r, p)) == if p.retain then RetainedMap(r)[p.topic := p] else RetainedMap(r)
  {
    forall t ensures Retained(Published(r, p), t) == if p.retain && t == p.topic then Some(p) else Retained(r, t) {
      PublishedRetained(r, p, t);
    }
    RetainedMapPut(r, Published(r, p), p);
  }

  class Topics {
    var channels: map<Topic, Channel>
    var wires: seq<Wire<PublishPacket>>

    function State(): Registry
      reads this
    {
      Registry(channels, wires)
    }

    ghost predicate Valid()
      reads this
    {
      ValidRegistry(State())
    }

    constructor ()
      ensures Valid() && State() == Registry(map[], [])
    {
      channels := map[];
      wires := [];
    }

    /** Creates a topic and returns a receiver for it; an error if the topic was known. */
    method Add(name: Topic) returns (r: Result<Receiver, Error>)
      requires Valid()
      modifies this
      ensures Valid() && State() == Added(old(State()), name)
      ensures r == if name in old(channels) then Err(TopicAlreadyExists(name)) else Ok(Receiver(old(|wires|), 0))
    {
      var known := name in channels;
      var receiver := Receiver(|wires|, 0);
      wires := wires + [NewWire(1)];
      channels := channels[name := Channel(receiver.wire, None)];
      if !known {
        return Ok(receiver);
      }
      Drop(receiver);
      r := Err(TopicAlreadyExists(name));
    }

    /** A receiver goes out of scope. */
    method Drop(receiver: Receiver)
      requires Valid()
      modifies this`wires
      ensures Valid() && State() == Dropped(old(State()), receiver)
    {
      if receiver.wire < |wires| && wires[receiver.wire].receivers > 0 {
        var w := wires[receiver.wire];
        wires := wires[receiver.wire := w.(receivers := w.receivers - 1)];
      }
    }

    /** Never fails: a missing topic is created first. */
    method Subscribe(name: Topic) returns (r: Result<Receiver, Error>)
      requires Valid()
      modifies this
      ensures Valid() && State() == Subscribed(old(State()), name)
      ensures r == Ok(NewReceiver(old(State()), name))
    {
      if name in channels {
        var i := channels[name].sender;
        r := Ok(Receiver(i, wires[i].tail));
        wires := wires[i := wires[i].(receivers := wires[i].receivers + 1)];
      } else {
        r := Add(name);
      }
    }

    method SendMessage(i: nat, p: PublishPacket) returns (r: Result<(), Error>)
      requires Valid() && i < |wires|
      modifies this`wires
      ensures Valid() && wires == old(wires)[i := Send(old(wires)[i], p)]
      ensures r == if old(wires)[i].receivers == 0 then Err(NoReceiversFound) else Ok(())
    {
      if wires[i].receivers == 0 {
        return Err(NoReceiversFound);
      }
      SendKeepsValid(wires[i], p);
      wires := wires[i := Send(wires[i], p)];
      r := Ok(());
    }

    /** Creates the topic of a publish and sends; the receiver of `add` is dropped at once, so nobody hears it. */
    method CreateAndSend(p: PublishPacket) returns (r: Result<(), Error>)
      requires Valid() && p.topic !in channels
      modifies this
      ensures Valid() && State() == Sent(old(State()), p)
      ensures r == Ok(())
    {
      var added := Add(p.topic);
      match added {
        case Err(e) => return Err(e);
        case Ok(receiver) => Drop(receiver);
      }
      var _ := SendMessage(channels[p.topic].sender, p);
      r := Ok(());
    }

    /** Never fails: a missing topic is created first and a send without receivers is ignored. */
    method Publish(p: PublishPacket) returns (r: Result<(), Error>)
      requires Valid()
      modifies this
      ensures Valid() && State() == Published(old(State()), p)
      ensures r == Ok(())
    {
      if p.topic in channels {
        var _ := SendMessage(channels[p.topic].sender, p);
      } else {
        var created := CreateAndSend(p);
        if created.Err? {
          return created;
        }
      }
      if p.retain {
        channels := channels[p.topic := channels[p.topic].(retained := Some(p))];
      }
      r := Ok(());
    }

    method GetRetainedMessage(name: Topic) returns (r: Option<PublishPacket>)
      ensures r == Retained(State(), name)
    {
      if name in channels {
        r := channels[name].retained;
      } else {
        r := None;
      }
    }
  }
}
