/** What SUBSCRIBE and UNSUBSCRIBE do, filter by filter, to a session's receivers and to the registry. */
module Subscriptions {
  import opened Prelude
  import opened Packets
  import opened Broadcast
  import opened Topics
  import opened Scheduling

  // Acknowledgement lists.

  function GrantFor(f: TopicFilter): SubscribeCode {
    match f
    case Concrete(_) => GrantedQoSZero
    case Wildcard(_) => WildcardNotSupported
    case _ => SharedNotSupported
  }

  function GrantOf(f: TopicFilter): seq<SubscribeCode> {
    [GrantFor(f)]
  }

  /** The codes of a SUBACK. */
  function Grants(filters: seq<TopicFilter>): seq<SubscribeCode> {
    Flat(filters, GrantOf)
  }

  /** One code per filter, in order: quality of service zero for a concrete filter, a refusal for every other kind. */
  lemma {:induction false} GrantPerFilter(filters: seq<TopicFilter>, i: nat)
    requires i < |filters|
    ensures |Grants(filters)| == |filters|
    ensures filters[i].Concrete? <==> Grants(filters)[i] == GrantedQoSZero
    ensures filters[i].Wildcard? <==> Grants(filters)[i] == WildcardNotSupported
    ensures filters[i].SharedConcrete? || filters[i].SharedWildcard? <==> Grants(filters)[i] == SharedNotSupported
  {
    var init := filters[..|filters| - 1];
    if init == [] {
      assert Grants(init) == [];
    } else {
      GrantPerFilter(init, if i < |init| then i else 0);
    }
  }

  /** The topics named by concrete filters. */
  ghost function ConcreteNames(filters: seq<TopicFilter>): set<Topic> {
    set f | f in filters && f.Concrete? :: f.name
  }

  /** Code `i` of an UNSUBACK: success iff the filter is concrete, was held and does not occur before. */
  ghost predicate RemovalOk(code: UnsubscribeCode, filters: seq<TopicFilter>, i: nat, held: set<Topic>)
    requires i < |filters|
  {
    && (code.Unsubscribed? <==> filters[i].Concrete? && filters[i].name in held && filters[i] !in filters[..i])
    && (code.ImplementationSpecificError? <==> !filters[i].Concrete?)
  }

  ghost predicate RemovalsOk(codes: seq<UnsubscribeCode>, filters: seq<TopicFilter>, held: set<Topic>) {
    |codes| == |filters| && forall i :: 0 <= i < |codes| ==> RemovalOk(codes[i], filters, i, held)
  }

  lemma NamesSnoc(filters: seq<TopicFilter>, f: TopicFilter)
    ensures ConcreteNames(filters + [f]) == ConcreteNames(filters) + if f.Concrete? then {f.name} else {}
  {
    forall t ensures t in ConcreteNames(filters + [f]) <==>
                     t in ConcreteNames(filters) || (f.Concrete? && t == f.name)
    {
      assert Concrete(t) in filters + [f] <==> Concrete(t) in filters || Concrete(t) == f;
      assert t in ConcreteNames(filters) <==> Concrete(t) in filters;
      assert t in ConcreteNames(filters + [f]) <==> Concrete(t) in filters + [f];
    }
  }

  lemma InNames(filters: seq<TopicFilter>, name: Topic)
    ensures name in ConcreteNames(filters) <==> Concrete(name) in filters
  {
  }

  lemma GrantsSnoc(filters: seq<TopicFilter>, i: nat)
    requires i < |filters|
    ensures Grants(filters[..i + 1]) == Grants(filters[..i]) + [GrantFor(filters[i])]
    ensures ConcreteNames(filters[..i + 1]) ==
            ConcreteNames(filters[..i]) + if filters[i].Concrete? then {filters[i].name} else {}
  {
    assert filters[..i + 1] == filters[..i] + [filters[i]];
    NamesSnoc(filters[..i], filters[i]);
    FlatSnoc(filters, i, GrantOf);
  }

  lemma NamesGrow(keys: set<Topic>, filters: seq<TopicFilter>, i: nat)
    requires i < |filters|
    ensures keys + ConcreteNames(filters[..i]) + (if filters[i].Concrete? then {filters[i].name} else {}) ==
            keys + ConcreteNames(filters[..i + 1])
  {
    GrantsSnoc(filters, i);
  }

  function CodeFor(f: TopicFilter, held: set<Topic>): UnsubscribeCode {
    if !f.Concrete? then ImplementationSpecificError
    else if f.name in held then Unsubscribed
    else NoSubscriptionExisted
  }

  /** The code that the receivers left by the filters before call for, and the receivers left after it. */
  lemma RemovalSnoc(code: UnsubscribeCode, filters: seq<TopicFilter>, i: nat, m: Receivers)
    requires i < |filters| && code == CodeFor(filters[i], (m - ConcreteNames(filters[..i])).Keys)
    ensures RemovalOk(code, filters, i, m.Keys)
    ensures m - ConcreteNames(filters[..i + 1]) ==
            if filters[i].Concrete? then m - ConcreteNames(filters[..i]) - {filters[i].name}
            else m - ConcreteNames(filters[..i])
  {
    GrantsSnoc(filters, i);
    InNames(filters[..i], filters[i].name);
  }

  lemma RemovalsSnoc(codes: seq<UnsubscribeCode>, code: UnsubscribeCode, filters: seq<TopicFilter>, i: nat,
                     held: set<Topic>)
    requires i < |filters| && RemovalsOk(codes, filters[..i], held) && RemovalOk(code, filters, i, held)
    ensures RemovalsOk(codes + [code], filters[..i + 1], held)
  {
    forall j | 0 <= j <= i ensures RemovalOk((codes + [code])[j], filters[..i + 1], j, held) {
      assert filters[..i + 1][..j] == filters[..j];
      if j < i {
        assert RemovalOk(codes[j], filters[..i], j, held);
        assert filters[..i][..j] == filters[..j];
      }
    }
  }

  // One topic.

  /** A new receiver, and the one it replaces is dropped. */
  function SubscribeOne(r: Registry, m: Receivers, t: Topic): (Registry, Receivers) {
    var after := Subscribed(r, t);
    (if t in m then Dropped(after, m[t]) else after, m[t := NewReceiver(r, t)])
  }

  function UnsubscribeOne(r: Registry, m: Receivers, t: Topic): (Registry, Receivers) {
    if t in m then (Dropped(r, m[t]), m - {t}) else (r, m)
  }

  /** Every receiver reads an existing wire. */
  ghost predicate Wired(r: Registry, m: Receivers) {
    ValidRegistry(r) && forall k <- m :: m[k].wire < |r.wires|
  }

  lemma SubscribeOneRetained(r: Registry, m: Receivers, t: Topic, u: Topic)
    requires ValidRegistry(r)
    ensures Retained(SubscribeOne(r, m, t).0, u) == Retained(r, u)
  {
  }

  /** Subscribing changes no retained message and leaves every receiver its wire. */
  lemma SubscribeOneOk(r: Registry, m: Receivers, t: Topic, u: Topic)
    requires Wired(r, m)
    ensures var (r', m') := SubscribeOne(r, m, t); Wired(r', m') && Retained(r', u) == Retained(r, u)
    ensures |SubscribeOne(r, m, t).0.wires| >= |r.wires|
  {
    SubscribeOneRetained(r, m, t, u);
    SubscribedValid(r, t);
    if t in m { DroppedValid(Subscribed(r, t), m[t]); }
  }
}
