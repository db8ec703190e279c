// Order-preserving removal of dead entities: the erase/remove_if idiom of
// cleanupEntities, applied to each entity list.

module Compaction {

  /** The elements of s for which live holds, in their original order. */
  function Keep<T>(s: seq<T>, live: T -> bool): (r: seq<T>)
    ensures |r| <= |s|
    decreases |s|
  {
    if |s| == 0 then []
    else Keep(s[..|s| - 1], live) + (if live(s[|s| - 1]) then [s[|s| - 1]] else [])
  }

  /** Every kept element is live, and every element is kept exactly as many
      times as it occurs in s when it is live, and never otherwise. */
  lemma {:induction false} KeepExactly<T>(s: seq<T>, live: T -> bool)
    ensures forall x :: x in Keep(s, live) ==> live(x)
    ensures forall x :: multiset(Keep(s, live))[x] == if live(x) then multiset(s)[x] else 0
    ensures forall x :: x in Keep(s, live) <==> x in s && live(x)
    decreases |s|
  {
    if |s| > 0 {
      var init := s[..|s| - 1];
      KeepExactly(init, live);
      assert s == init + [s[|s| - 1]];
    }
    forall x
      ensures x in Keep(s, live) <==> x in s && live(x)
    {
      assert x in Keep(s, live) <==> x in multiset(Keep(s, live));
      assert x in s <==> x in multiset(s);
    }
  }

  /** Removal distributes over concatenation: kept elements keep their
      relative order. */
  lemma {:induction false} KeepConcat<T>(a: seq<T>, b: seq<T>, live: T -> bool)
    ensures Keep(a + b, live) == Keep(a, live) + Keep(b, live)
    decreases |b|
  {
    if |b| == 0 {
      assert a + b == a;
    } else {
      var init := b[..|b| - 1];
      KeepConcat(a, init, live);
      assert (a + b)[..|a + b| - 1] == a + init;
    }
  }

  /** A list whose elements are all live is left as it is. */
  lemma {:induction false} KeepAllLive<T>(s: seq<T>, live: T -> bool)
    requires forall i :: 0 <= i < |s| ==> live(s[i])
    ensures Keep(s, live) == s
    decreases |s|
  {
    if |s| > 0 {
      KeepAllLive(s[..|s| - 1], live);
    }
  }

  /** Replacing one element changes the number kept by the change in that
      element's liveness. */
  lemma {:induction false} KeepCountUpdate<T>(s: seq<T>, j: int, x: T, live: T -> bool)
    requires 0 <= j < |s|
    ensures |Keep(s[j := x], live)| ==
      |Keep(s, live)| - (if live(s[j]) then 1 else 0) + (if live(x) then 1 else 0)
    decreases |s|
  {
    var t := s[j := x];
    if j < |s| - 1 {
      KeepCountUpdate(s[..|s| - 1], j, x, live);
      assert t[..|t| - 1] == s[..|s| - 1][j := x];
    } else {
      assert t[..|t| - 1] == s[..|s| - 1];
    }
  }

  /** The remove_if loop: live elements are moved forward over dead ones and
      the tail is erased. */
  method Compact<T>(s: seq<T>, live: T -> bool) returns (r: seq<T>)
    ensures r == Keep(s, live)
  {
    r := [];
    for i := 0 to |s|
      invariant r == Keep(s[..i], live)
    {
      assert s[..i + 1][..i] == s[..i];
      if live(s[i]) {
        r := r + [s[i]];
      }
    }
    assert s[..|s|] == s;
  }
}
