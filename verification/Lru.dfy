/** The bounded recency set that absorbs redelivered message ids
    (src/agentchatme/_realtime.py:425-453), and its meaning over whole
    histories of lookups and insertions. */
module Lru {
  import opened Wrappers

  /** s without any k, order kept. */
  function Without(s: seq<string>, k: string): seq<string> {
    if s == [] then []
    else
      var init := Without(s[..|s| - 1], k);
      if s[|s| - 1] == k then init else init + [s[|s| - 1]]
  }

  /** Entries run from the least to the most recently seen. */
  function Hit(entries: seq<string>, k: string): seq<string> {
    if k in entries then Without(entries, k) + [k] else entries
  }

  function Newest(s: seq<string>, n: nat): seq<string> {
    if |s| <= n then s else s[|s| - n..]
  }

  function Add(capacity: int, entries: seq<string>, k: string): seq<string> {
    if capacity <= 0 then entries else Newest(Without(entries, k) + [k], capacity)
  }

  // ----- The class -----

  class BoundedLruSet {
    const capacity: int
    var entries: seq<string>

    constructor (capacity: int)
      ensures this.capacity == capacity && entries == []
    {
      this.capacity := capacity;
      entries := [];
    }

    method Contains(key: string) returns (seen: bool)
      modifies this
      ensures seen == (key in old(entries))
      ensures entries == Hit(old(entries), key)
    {
      if key !in entries { return false; }
      entries := Without(entries, key) + [key];
      return true;
    }

    method Insert(key: string)
      modifies this
      ensures entries == Add(capacity, old(entries), key)
    {
      if capacity <= 0 { return; }
      ghost var all := Without(entries, key) + [key];
      entries := Without(entries, key) + [key];
      while |entries| > capacity
        invariant |entries| <= |all| && entries == all[|all| - |entries|..]
        invariant |entries| >= capacity || entries == all
      {
        entries := entries[1..];
      }
    }
  }

  // ----- Whole histories -----

  datatype Op = Lookup(key: string) | Insertion(key: string)

  function Apply(capacity: int, entries: seq<string>, op: Op): seq<string> {
    match op
    case Lookup(k) => Hit(entries, k)
    case Insertion(k) => Add(capacity, entries, k)
  }

  function Run(capacity: int, ops: seq<Op>): seq<string> {
    if ops == [] then [] else Apply(capacity, Run(capacity, ops[..|ops| - 1]), ops[|ops| - 1])
  }

  /** The keys touched so far, oldest first: every insertion, and every lookup
      that found its key. */
  function Touches(capacity: int, ops: seq<Op>): seq<string> {
    if ops == [] then []
    else
      var before, op := ops[..|ops| - 1], ops[|ops| - 1];
      if op.Insertion? || op.key in Run(capacity, before)
      then Touches(capacity, before) + [op.key]
      else Touches(capacity, before)
  }

  /** What follows the last k in s (all of s when k is absent). */
  function Since(s: seq<string>, k: string): seq<string> {
    if s == [] || s[|s| - 1] == k then []
    else Since(s[..|s| - 1], k) + [s[|s| - 1]]
  }

  /** The distinct keys of s, by last occurrence. */
  function Recency(s: seq<string>): seq<string> {
    if s == [] then [] else Without(Recency(s[..|s| - 1]), s[|s| - 1]) + [s[|s| - 1]]
  }

  lemma {:induction false} WithoutFacts(s: seq<string>, k: string)
    ensures forall x :: x in Without(s, k) <==> x in s && x != k
    ensures Distinct(s) ==> Distinct(Without(s, k))
    ensures Distinct(s) ==> |Without(s, k)| == if k in s then |s| - 1 else |s|
    ensures k !in s ==> Without(s, k) == s
  {
    if s != [] {
      WithoutFacts(s[..|s| - 1], k);
      assert s == s[..|s| - 1] + [s[|s| - 1]];
      if Distinct(s) {
        assert s[|s| - 1] !in s[..|s| - 1];
      }
    }
  }

  lemma {:induction false} RecencyFacts(s: seq<string>)
    ensures Distinct(Recency(s)) && Elements(Recency(s)) == Elements(s)
  {
    if s != [] {
      RecencyFacts(s[..|s| - 1]);
      WithoutFacts(Recency(s[..|s| - 1]), s[|s| - 1]);
      assert s == s[..|s| - 1] + [s[|s| - 1]];
      forall x ensures x in Recency(s) <==> x in s {
        assert x in Elements(Recency(s[..|s| - 1])) <==> x in Elements(s[..|s| - 1]);
      }
    }
  }

  /** Touching x moves it behind whatever already followed k. */
  lemma {:induction false} SinceWithout(s: seq<string>, x: string, k: string)
    requires x != k && k in s
    ensures Since(Without(s, x), k) == Without(Since(s, k), x)
  {
    var init, last := s[..|s| - 1], s[|s| - 1];
    assert s == init + [last];
    if last != k {
      SinceWithout(init, x, k);
      var w, t := Without(init, x), Since(init, k);
      assert (w + [last])[..|w|] == w && (t + [last])[..|t|] == t;
    } else {
      var w := Without(init, x);
      assert (w + [k])[..|w|] == w;
    }
  }

  lemma {:induction false} SinceRecency(s: seq<string>, k: string)
    requires k in s
    ensures Elements(Since(Recency(s), k)) == Elements(Since(s, k))
  {
    var init, x := s[..|s| - 1], s[|s| - 1];
    assert s == init + [x];
    var w := Without(Recency(init), x);
    assert Recency(s)[..|w|] == w;
    if x != k {
      SinceRecency(init, k);
      RecencyFacts(init);
      assert k in Elements(Recency(init));
      SinceWithout(Recency(init), x, k);
      WithoutFacts(Since(Recency(init), k), x);
      var a, b := Since(Recency(init), k), Since(init, k);
      assert Elements(a) == Elements(b);
      forall y ensures y in Elements(Since(Recency(s), k)) <==> y in Elements(Since(s, k)) {
        assert y in a <==> y in Elements(b);
      }
    }
  }

  lemma {:induction false} NewestMember(s: seq<string>, n: nat, k: string)
    requires Distinct(s) && k in s
    ensures k in Newest(s, n) <==> |Since(s, k)| < n
    ensures Distinct(Since(s, k))
    ensures |Since(s, k)| < |s|
  {
    SinceIsSuffix(s, k);
    var m := |Since(s, k)|;
    if |s| > n {
      assert Newest(s, n) == s[|s| - n..];
      if m < n { assert Newest(s, n)[n - m - 1] == s[|s| - m - 1] == k; }
    }
  }

  lemma {:induction false} SinceIsSuffix(s: seq<string>, k: string)
    requires k in s
    ensures |Since(s, k)| < |s|
    ensures Since(s, k) == s[|s| - |Since(s, k)|..] && s[|s| - |Since(s, k)| - 1] == k
  {
    var init, last := s[..|s| - 1], s[|s| - 1];
    assert s == init + [last];
    if last != k { SinceIsSuffix(init, k); }
  }

  /** The set always holds the newest keys of the recency order. */
  lemma {:induction false} RunIsNewest(capacity: int, ops: seq<Op>)
    requires capacity > 0
    ensures Run(capacity, ops) == Newest(Recency(Touches(capacity, ops)), capacity)
  {
    if ops != [] {
      var before, op := ops[..|ops| - 1], ops[|ops| - 1];
      RunIsNewest(capacity, before);
      var t := Touches(capacity, before);
      var r, k := Recency(t), op.key;
      if op.Insertion? || k in Run(capacity, before) {
        assert (t + [k])[..|t|] == t;
        RecencyFacts(t);
        TouchNewest(r, capacity, k);
      }
    }
  }

  lemma NewestAppend(a: seq<string>, b: seq<string>, n: nat)
    requires |b| >= n
    ensures Newest(a + b, n) == Newest(b, n)
  {
    if |b| > n || |a| > 0 {
      assert (a + b)[|a| + |b| - n..] == b[|b| - n..];
    } else {
      assert a + b == b;
    }
  }

  lemma {:induction false} TouchNewest(r: seq<string>, n: nat, k: string)
    requires Distinct(r) && n > 0
    ensures Newest(Without(Newest(r, n), k) + [k], n) == Newest(Without(r, k) + [k], n)
    ensures k in Newest(r, n) ==> Without(Newest(r, n), k) + [k] == Newest(Without(r, k) + [k], n)
  {
    if |r| <= n {
      WithoutFacts(r, k);
    } else {
      var aged, young := r[..|r| - n], r[|r| - n..];
      assert r == aged + young;
      TouchYoung(aged, young, k);
    }
  }

  lemma {:induction false} TouchYoung(aged: seq<string>, young: seq<string>, k: string)
    requires Distinct(young)
    ensures var tail, n := Without(young, k) + [k], |young|;
      && Newest(tail, n) == Newest(Without(aged + young, k) + [k], n)
      && (k in young ==> tail == Newest(tail, n))
  {
    var tail := Without(young, k) + [k];
    WithoutFacts(young, k);
    WithoutAppend(aged, young, k);
    assert Without(aged + young, k) + [k] == Without(aged, k) + tail;
    NewestAppend(Without(aged, k), tail, |young|);
  }

  lemma {:induction false} WithoutAppend(a: seq<string>, b: seq<string>, k: string)
    ensures Without(a + b, k) == Without(a, k) + Without(b, k)
  {
    if b == [] {
      assert a + b == a;
    } else {
      var init, last := b[..|b| - 1], b[|b| - 1];
      assert (a + b)[..|a + b| - 1] == a + init;
      WithoutAppend(a, init, k);
    }
  }

  /** A key is a member exactly when it was touched and fewer than `capacity`
      distinct keys have been touched since its own last touch. */
  lemma {:induction false} MemberIffRecent(capacity: int, ops: seq<Op>, k: string)
    requires capacity > 0
    ensures k in Run(capacity, ops) <==>
              k in Touches(capacity, ops) && |Elements(Since(Touches(capacity, ops), k))| < capacity
  {
    var t := Touches(capacity, ops);
    RunIsNewest(capacity, ops);
    RecencyFacts(t);
    if k in t {
      assert k in Elements(Recency(t));
      NewestMember(Recency(t), capacity, k);
      SinceRecency(t, k);
      DistinctSize(Since(Recency(t), k));
    } else {
      assert k !in Elements(Recency(t));
    }
  }

  /** Never more than `capacity` ids, and none twice; nothing at all when disabled. */
  lemma {:induction false} RunBounded(capacity: int, ops: seq<Op>)
    ensures Distinct(Run(capacity, ops)) && |Run(capacity, ops)| <= Max(capacity, 0)
  {
    if capacity > 0 {
      RunIsNewest(capacity, ops);
      RecencyFacts(Touches(capacity, ops));
    } else if ops != [] {
      RunBounded(capacity, ops[..|ops| - 1]);
    }
  }
}
