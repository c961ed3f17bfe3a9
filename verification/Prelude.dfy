/** Small types shared by every module. */
module Prelude {
  datatype Option<+T> = None | Some(value: T)

  datatype Result<+T, +E> = Ok(value: T) | Err(error: E)

  lemma Reassociate<T>(x: seq<T>, y: seq<T>, z: seq<T>)
    ensures x + y + z == x + (y + z)
  {
  }

  /** What each element of a list gives, one after the other. */
  function Flat<S, T>(s: seq<S>, f: S -> seq<T>): seq<T> {
    if s == [] then [] else Flat(s[..|s| - 1], f) + f(s[|s| - 1])
  }

  lemma FlatSnoc<S, T>(s: seq<S>, i: nat, f: S -> seq<T>)
    requires i < |s|
    ensures Flat(s[..i + 1], f) == Flat(s[..i], f) + f(s[i])
  {
    assert s[..i + 1][..i] == s[..i];
  }

  lemma {:induction false} FlatConcat<S, T>(a: seq<S>, b: seq<S>, f: S -> seq<T>)
    ensures Flat(a + b, f) == Flat(a, f) + Flat(b, f)
  {
    if b == [] {
      assert a + b == a;
    } else {
      assert (a + b)[..|a + b| - 1] == a + b[..|b| - 1];
      FlatConcat(a, b[..|b| - 1], f);
    }
  }

  lemma FlatPrefix<S, T>(s: seq<S>, i: nat, f: S -> seq<T>)
    requires i <= |s|
    ensures Flat(s[..i], f) <= Flat(s, f)
  {
    FlatConcat(s[..i], s[i..], f);
    assert s == s[..i] + s[i..];
  }

  lemma PrefixPlus<T>(x: seq<T>, y: seq<T>, z: seq<T>)
    requires y <= z
    ensures x + y <= x + z
  {
  }

  /** All lists of a list, one after the other. */
  function Concat<T>(lists: seq<seq<T>>): seq<T> {
    if lists == [] then [] else Concat(lists[..|lists| - 1]) + lists[|lists| - 1]
  }

  /** A list that grows by `steps[k]` in step `k` has grown by all of them in the end. */
  lemma {:induction false} Accumulates<T>(states: seq<seq<T>>, steps: seq<seq<T>>)
    requires |states| == |steps| + 1 && forall k :: 0 <= k < |steps| ==> states[k + 1] == states[k] + steps[k]
    ensures states[|steps|] == states[0] + Concat(steps)
  {
    if steps != [] {
      var n := |steps| - 1;
      Accumulates(states[..n + 1], steps[..n]);
      Reassociate(states[0], Concat(steps[..n]), steps[n]);
      assert states[n + 1] == states[n] + steps[n];
    }
  }
}
