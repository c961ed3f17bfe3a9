/** The order of topic names, in which a session's receivers are visited. */
module Order {

  /** Lexicographic, by code points; the same order as on the UTF-8 bytes. */
  predicate Less(a: string, b: string) {
    b != [] && (a == [] || a[0] < b[0] || (a[0] == b[0] && Less(a[1..], b[1..])))
  }

  /** At position `i` the strings part: `a` ends there, or has the smaller character. */
  predicate PartsAt(a: string, b: string, i: nat) {
    i <= |a| && i < |b| && a[..i] == b[..i] && (i == |a| || a[i] < b[i])
  }

  /** A string comes before another exactly if it is a proper prefix of it or smaller where they first differ. */
  lemma {:induction false} LessIffParts(a: string, b: string)
    ensures Less(a, b) <==> exists i: nat :: PartsAt(a, b, i)
  {
    if a == [] {
      assert b != [] ==> PartsAt(a, b, 0);
    } else if b != [] && a[0] == b[0] {
      LessIffParts(a[1..], b[1..]);
      if i: nat :| PartsAt(a[1..], b[1..], i) {
        PartsTail(a, b, i);
      }
      if j: nat :| PartsAt(a, b, j) {
        assert j != 0;
        PartsTail(a, b, j - 1);
      }
    } else if b != [] && a[0] < b[0] {
      assert PartsAt(a, b, 0);
    } else {
      forall j: nat ensures !PartsAt(a, b, j) { PartsHead(a, b, j); }
    }
  }

  /** Strings that part later start alike. */
  lemma PartsHead(a: string, b: string, i: nat)
    ensures PartsAt(a, b, i) && i > 0 ==> a[0] == b[0]
  {
    if PartsAt(a, b, i) && i > 0 {
      assert a[..i][0] == b[..i][0];
    }
  }

  lemma PartsTail(a: string, b: string, i: nat)
    requires a != [] && b != [] && a[0] == b[0]
    ensures PartsAt(a[1..], b[1..], i) <==> PartsAt(a, b, i + 1)
  {
    if i < |a| && i + 1 < |b| {
      assert a[..i + 1] == [a[0]] + a[1..][..i] && b[..i + 1] == [b[0]] + b[1..][..i];
      assert a[1..][..i] == a[..i + 1][1..] && b[1..][..i] == b[..i + 1][1..];
    }
  }

  lemma {:induction false} LessTotal(a: string, b: string)
    ensures (Less(a, b) && !Less(b, a) && a != b) || (Less(b, a) && !Less(a, b) && a != b) ||
            (a == b && !Less(a, b))
  {
    if a != [] && b != [] && a[0] == b[0] {
      LessTotal(a[1..], b[1..]);
      assert a == [a[0]] + a[1..] && b == [b[0]] + b[1..];
    }
  }

  lemma {:induction false} LessTransitive(a: string, b: string, c: string)
    requires Less(a, b) && Less(b, c)
    ensures Less(a, c)
  {
    if a != [] && a[0] == b[0] == c[0] {
      LessTransitive(a[1..], b[1..], c[1..]);
    }
  }

  ghost predicate Ascending(keys: seq<string>) {
    forall i, j :: 0 <= i < j < |keys| ==> Less(keys[i], keys[j])
  }

  /** The keys of an ordered map, in iteration order. */
  method InOrder(names: set<string>) returns (keys: seq<string>)
    ensures Ascending(keys)
    ensures forall k :: k in keys <==> k in names
  {
    keys := [];
    var rest := names;
    while rest != {}
      invariant rest <= names && Ascending(keys)
      invariant forall k :: k in keys <==> k in names - rest
      decreases rest
    {
      var name :| name in rest;
      var i := 0;
      while i < |keys| && Less(keys[i], name)
        invariant 0 <= i <= |keys|
        invariant forall j :: 0 <= j < i ==> Less(keys[j], name)
      {
        i := i + 1;
      }
      InsertKeepsOrder(keys, name, i);
      assert forall k :: k in keys <==> k in keys[..i] || k in keys[i..] by { assert keys == keys[..i] + keys[i..]; }
      keys := keys[..i] + [name] + keys[i..];
      rest := rest - {name};
    }
  }

  lemma InsertKeepsOrder(keys: seq<string>, name: string, i: nat)
    requires Ascending(keys) && name !in keys && i <= |keys|
    requires forall j :: 0 <= j < i ==> Less(keys[j], name)
    requires i < |keys| ==> !Less(keys[i], name)
    ensures Ascending(keys[..i] + [name] + keys[i..])
  {
    forall j | i <= j < |keys| ensures Less(name, keys[j]) {
      LessTotal(name, keys[i]);
      if i < j { LessTransitive(name, keys[i], keys[j]); }
    }
  }
}
