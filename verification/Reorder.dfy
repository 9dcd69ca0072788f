/** The bound of the reorder buffer (src/agentchatme/_realtime.py:313-315, 1729-1740),
    in terms of what was received: up to 500 seqs ahead of the longest run are put
    back in order without a notice, and the 501st gives the gap up. */
module Reorder {
  import opened Wrappers
  import opened Envelopes
  import opened Ordering
  import opened OrderingLaws
  import opened Lives

  /** The seqs received beyond the longest run from a. */
  function Ahead(a: nat, received: set<nat>): set<nat> {
    set s | s in received && s > a + RunLength(received, a)
  }

  /** Only the anchor so far, or something is missing: the order state is kept. */
  predicate Incomplete(a: nat, received: set<nat>) {
    RunLength(received, a) == 1 || Ahead(a, received) != {}
  }

  function AheadOf(anchor: Pending, evs: seq<LifeEvent>): set<nat> {
    Ahead(SeqOf(anchor), Received(anchor, evs))
  }

  /** Never more than 500 seqs ahead. */
  ghost predicate Within(anchor: Pending, evs: seq<LifeEvent>) {
    forall k :: 0 <= k <= |evs| ==> |AheadOf(anchor, evs[..k])| <= 500
  }

  /** Up to the last frame something was missing. */
  ghost predicate KeptOpen(anchor: Pending, evs: seq<LifeEvent>) {
    forall k :: 0 <= k < |evs| ==> Incomplete(SeqOf(anchor), Received(anchor, evs[..k]))
  }

  lemma RunIs(received: set<nat>, a: nat, n: nat)
    requires IsRun(received, a, n)
    ensures RunLength(received, a) == n
  {
    var m := RunLength(received, a);
    assert IsRun(received, a, m);
    assert m < n ==> a + m in received;
    assert n < m ==> a + n in received;
  }

  /** A life that meets the simple meaning of the buffer parks what is ahead. */
  lemma SpecAhead(a: nat, received: set<nat>, l: Life)
    requires MeetsSpec(a, received, l)
    ensures RunLength(received, a) == |l.handed| && l.state.buffer.Keys == Ahead(a, received)
  {
    assert IsRun(received, a, |l.handed|);
    RunIs(received, a, |l.handed|);
  }

  /** Exactly as long as something is missing, the life goes on. */
  ghost predicate OpenAsNeeded(l: Life) {
    l.open <==> |l.handed| == 1 || l.state.buffer != map[]
  }

  ghost predicate Reordered(anchor: Pending, evs: seq<LifeEvent>, l: Life) {
    && l.notices == [] && OpenAsNeeded(l)
    && MeetsSpec(SeqOf(anchor), Received(anchor, evs), l)
  }

  lemma FrameInBound(anchor: Pending, l: Life, received: set<nat>, p: Pending, hasClient: bool, wsAck: bool)
    requires MeetsSpec(SeqOf(anchor), received, l) && LifeOk(anchor, l) && OpenAsNeeded(l) && l.open && l.notices == []
    requires p.env.body.number.Some? && |Ahead(SeqOf(anchor), received + {SeqOf(p)})| <= 500
    ensures var l' := Step(l, Came(p), hasClient, wsAck); l'.notices == [] && OpenAsNeeded(l')
  {
    var o, s := l.state, SeqOf(p);
    if s == o.next {
      InOrderOk(o, p);
      assert l.handed + InOrder(o, p).out != [anchor];
    } else if s > o.next {
      ParkedSize(anchor, l, received, p);
      assert l.handed + [] == l.handed && l.notices + [] == l.notices;
    }
  }

  lemma ParkedSize(anchor: Pending, l: Life, received: set<nat>, p: Pending)
    requires MeetsSpec(SeqOf(anchor), received, l) && SeqOf(p) > l.state.next
    ensures l.state.buffer[SeqOf(p) := p].Keys == Ahead(SeqOf(anchor), received + {SeqOf(p)})
    ensures |l.state.buffer[SeqOf(p) := p]| == |Ahead(SeqOf(anchor), received + {SeqOf(p)})|
  {
    var a, all, b := SeqOf(anchor), received + {SeqOf(p)}, l.state.buffer[SeqOf(p) := p];
    assert IsRun(all, a, |l.handed|);
    RunIs(all, a, |l.handed|);
    assert b.Keys == Ahead(a, all);
    assert |b| == |b.Keys|;
  }

  lemma ReceivedIs(anchor: Pending, evs: seq<LifeEvent>)
    requires OnlyFrames(evs) && evs != []
    ensures Received(anchor, evs) == Received(anchor, evs[..|evs| - 1]) + {SeqOf(evs[|evs| - 1].p)}
  {
    forall s: nat ensures s in Received(anchor, evs) <==>
                     s in Received(anchor, evs[..|evs| - 1]) || s == SeqOf(evs[|evs| - 1].p)
    {
      ReceivedMore(anchor, evs, s);
    }
  }

  lemma PrefixesOf(anchor: Pending, evs: seq<LifeEvent>)
    requires evs != []
    ensures Within(anchor, evs) ==> Within(anchor, evs[..|evs| - 1]) && |AheadOf(anchor, evs)| <= 500
    ensures KeptOpen(anchor, evs) ==> KeptOpen(anchor, evs[..|evs| - 1])
    ensures KeptOpen(anchor, evs) ==> Incomplete(SeqOf(anchor), Received(anchor, evs[..|evs| - 1]))
  {
    var n := |evs| - 1;
    assert evs[..|evs|] == evs;
    assert forall k :: 0 <= k <= n ==> evs[..n][..k] == evs[..k];
  }

  lemma StillOpen(anchor: Pending, evs: seq<LifeEvent>, l: Life)
    requires Reordered(anchor, evs, l)
    ensures l.open <==> Incomplete(SeqOf(anchor), Received(anchor, evs))
  {
    SpecAhead(SeqOf(anchor), Received(anchor, evs), l);
    assert l.state.buffer != map[] <==> l.state.buffer.Keys != {};
  }

  /** Frames alone, never more than 500 seqs ahead: no notice is raised, and the
      hand-overs are the longest run from the anchor, with just the seqs ahead of
      it parked. */
  lemma {:induction false} InBoundInOrder(anchor: Pending, evs: seq<LifeEvent>, hasClient: bool, wsAck: bool)
    requires OnlyFrames(evs) && Within(anchor, evs) && KeptOpen(anchor, evs)
    ensures Reordered(anchor, evs, After(anchor, evs, hasClient, wsAck))
  {
    if evs != [] {
      var init, p := evs[..|evs| - 1], evs[|evs| - 1].p;
      var l, received := After(anchor, init, hasClient, wsAck), Received(anchor, init);
      PrefixesOf(anchor, evs);
      InBoundInOrder(anchor, init, hasClient, wsAck);
      StillOpen(anchor, init, l);
      HandedInOrder(anchor, init, hasClient, wsAck);
      ReceivedIs(anchor, evs);
      FrameInBound(anchor, l, received, p, hasClient, wsAck);
      MeetsSpecStep(SeqOf(anchor), received, l, p, hasClient, wsAck);
    }
  }

  lemma OneMoreKept(anchor: Pending, evs: seq<LifeEvent>)
    requires evs != []
    requires KeptOpen(anchor, evs[..|evs| - 1]) && Incomplete(SeqOf(anchor), Received(anchor, evs[..|evs| - 1]))
    ensures KeptOpen(anchor, evs)
  {
    var n := |evs| - 1;
    forall k | 0 <= k < n ensures Incomplete(SeqOf(anchor), Received(anchor, evs[..k])) {
      assert evs[..n][..k] == evs[..k];
    }
  }

  /** Nor is one raised after nothing was missing: the life is over then. */
  lemma {:induction false} InBoundNoNotice(anchor: Pending, evs: seq<LifeEvent>, hasClient: bool, wsAck: bool)
    requires OnlyFrames(evs) && Within(anchor, evs)
    ensures After(anchor, evs, hasClient, wsAck).notices == []
    ensures KeptOpen(anchor, evs) || !After(anchor, evs, hasClient, wsAck).open
  {
    if KeptOpen(anchor, evs) {
      InBoundInOrder(anchor, evs, hasClient, wsAck);
    } else {
      var init := evs[..|evs| - 1];
      PrefixesOf(anchor, evs);
      InBoundNoNotice(anchor, init, hasClient, wsAck);
      if KeptOpen(anchor, init) {
        InBoundInOrder(anchor, init, hasClient, wsAck);
        StillOpen(anchor, init, After(anchor, init, hasClient, wsAck));
        if Incomplete(SeqOf(anchor), Received(anchor, init)) { OneMoreKept(anchor, evs); }
      }
    }
  }

  /** Two arrival orders of the same seqs, neither ever more than 500 ahead, end in the
      same hand-overs and the same parked seqs. */
  lemma {:induction false} ArrivalOrderIrrelevant(anchor: Pending, xs: seq<LifeEvent>, ys: seq<LifeEvent>,
                                                  hasClient: bool, wsAck: bool)
    requires OnlyFrames(xs) && Within(anchor, xs) && KeptOpen(anchor, xs)
    requires OnlyFrames(ys) && Within(anchor, ys) && KeptOpen(anchor, ys)
    requires Received(anchor, xs) == Received(anchor, ys)
    ensures var x, y := After(anchor, xs, hasClient, wsAck), After(anchor, ys, hasClient, wsAck);
      SeqsOf(x.handed) == SeqsOf(y.handed) && x.state.buffer.Keys == y.state.buffer.Keys
  {
    InBoundInOrder(anchor, xs, hasClient, wsAck);
    InBoundInOrder(anchor, ys, hasClient, wsAck);
    SpecDetermines(SeqOf(anchor), Received(anchor, xs),
                   After(anchor, xs, hasClient, wsAck), After(anchor, ys, hasClient, wsAck));
  }

  lemma SmallerSet(x: set<nat>, y: set<nat>)
    requires x <= y
    ensures |x| <= |y|
  {
    assert y == x + (y - x);
  }

  /** No other frame puts more seqs ahead. */
  lemma OnlyParkAdds(anchor: Pending, l: Life, received: set<nat>, p: Pending)
    requires MeetsSpec(SeqOf(anchor), received, l) && SeqOf(p) <= l.state.next
    ensures |Ahead(SeqOf(anchor), received + {SeqOf(p)})| <= |Ahead(SeqOf(anchor), received)|
  {
    var a, all := SeqOf(anchor), received + {SeqOf(p)};
    var top := a + RunLength(all, a);
    SpecAhead(a, received, l);
    assert IsRun(all, a, RunLength(all, a)) && top !in all;
    SmallerSet(Ahead(a, all), Ahead(a, received));
  }

  lemma SeqIn(ps: seq<Pending>, s: nat)
    ensures s in SeqsOf(ps) <==> exists i :: 0 <= i < |ps| && SeqOf(ps[i]) == s
  {
    if i :| 0 <= i < |ps| && SeqOf(ps[i]) == s { assert SeqsOf(ps)[i] == s; }
  }

  lemma ValuesSeqs(buffer: map<nat, Pending>)
    requires Keyed(buffer)
    ensures SeqsOf(Values(buffer, Sorted(buffer.Keys))) == Sorted(buffer.Keys)
  {
    forall i | 0 <= i < |buffer.Keys|
      ensures SeqsOf(Values(buffer, Sorted(buffer.Keys)))[i] == Sorted(buffer.Keys)[i]
    {
      ValueAt(buffer, i);
    }
  }

  /** What was handed over before are the seqs of the run. */
  lemma RunSeqs(a: nat, received: set<nat>, l: Life, s: nat)
    requires MeetsSpec(a, received, l)
    ensures s in SeqsOf(l.handed) <==> a <= s < l.state.next
  {
    SeqIn(l.handed, s);
    if a <= s < l.state.next { assert SeqOf(l.handed[s - a]) == s; }
  }

  lemma SeqsSplit(a: seq<Pending>, b: seq<Pending>)
    ensures SeqsOf(a + b) == SeqsOf(a) + SeqsOf(b)
  {
  }

  lemma SpecSplits(a: nat, received: set<nat>, l: Life, s: nat)
    requires MeetsSpec(a, received, l)
    ensures s in received && s >= a <==> a <= s < l.state.next || s in l.state.buffer.Keys
  {
  }

  /** Everything parked is handed over. */
  lemma OverflowHands(anchor: Pending, l: Life, received: set<nat>, b: map<nat, Pending>, top: nat, s: nat)
    requires MeetsSpec(SeqOf(anchor), received, l) && Keyed(b) && top > l.state.next
    requires b.Keys == l.state.buffer.Keys + {top}
    ensures s in SeqsOf(l.handed) + Sorted(b.Keys) <==> s in received + {top} && s >= SeqOf(anchor)
  {
    RunSeqs(SeqOf(anchor), received, l, s);
    SpecSplits(SeqOf(anchor), received, l, s);
    assert s in Sorted(b.Keys) <==> s in b.Keys;
  }

  lemma OverflowStep(l: Life, p: Pending, hasClient: bool, wsAck: bool)
    requires l.open && SeqOf(p) > l.state.next && |l.state.buffer[SeqOf(p) := p]| == 501
    ensures var o1 := l.state.(buffer := l.state.buffer[SeqOf(p) := p]);
      Step(l, Came(p), hasClient, wsAck) == Took(l, Resolve(o1, LeastParked(o1), false, BufferOverflow))
  {
    assert Receive(l.state, SeqOf(p), p) == Park(l.state, SeqOf(p), p);
  }

  lemma ParkedKeyed(l: Life, p: Pending)
    requires Settled(l.state) && p.env.body.number.Some?
    ensures var b := l.state.buffer[SeqOf(p) := p];
      Keyed(b) && b.Keys == l.state.buffer.Keys + {SeqOf(p)} && b.Keys != {}
  {
  }

  /** Every seq from the anchor on that was received went out, in increasing order,
      nothing stays parked, and one notice reports the overflow. */
  ghost predicate GaveUp(a: nat, received: set<nat>, l: Life) {
    && Ascends(0, l.handed) && l.state.buffer == map[]
    && (forall s: nat :: s in SeqsOf(l.handed) <==> s in received && s >= a)
    && |l.notices| == 1 && l.notices[0].reason == BufferOverflow && !l.notices[0].recovered
    && l.notices[0].buffered.Some? && IsLeast(l.notices[0].buffered.value, Ahead(a, received))
  }

  lemma OverflowSeqs(anchor: Pending, l: Life, received: set<nat>, b: map<nat, Pending>, top: nat)
    requires MeetsSpec(SeqOf(anchor), received, l) && Keyed(b) && top > l.state.next
    requires b.Keys == l.state.buffer.Keys + {top}
    ensures forall s: nat :: s in SeqsOf(l.handed + Values(b, Sorted(b.Keys))) <==>
                             s in received + {top} && s >= SeqOf(anchor)
  {
    ValuesSeqs(b);
    SeqsSplit(l.handed, Values(b, Sorted(b.Keys)));
    forall s: nat ensures s in SeqsOf(l.handed) + Sorted(b.Keys) <==> s in received + {top} && s >= SeqOf(anchor) {
      OverflowHands(anchor, l, received, b, top, s);
    }
  }

  lemma OverflowTold(l: Life, o: OrderState)
    requires l.notices == [] && o.buffer.Keys != {}
    ensures var l' := Took(l, Resolve(o, LeastParked(o), false, BufferOverflow));
      && l'.handed == l.handed + Values(o.buffer, Sorted(o.buffer.Keys)) && l'.state.buffer == map[]
      && |l'.notices| == 1 && l'.notices[0].reason == BufferOverflow && !l'.notices[0].recovered
      && l'.notices[0].buffered.Some? && IsLeast(l'.notices[0].buffered.value, o.buffer.Keys)
  {
  }

  lemma OverflowGivesUp(anchor: Pending, l: Life, received: set<nat>, p: Pending, hasClient: bool, wsAck: bool)
    requires MeetsSpec(SeqOf(anchor), received, l) && Settled(l.state) && p.env.body.number.Some?
    requires l.open && l.notices == [] && SeqOf(p) > l.state.next
    requires |Ahead(SeqOf(anchor), received + {SeqOf(p)})| == 501
    requires Ascends(0, Step(l, Came(p), hasClient, wsAck).handed)
    ensures GaveUp(SeqOf(anchor), received + {SeqOf(p)}, Step(l, Came(p), hasClient, wsAck))
  {
    var l', b := Step(l, Came(p), hasClient, wsAck), l.state.buffer[SeqOf(p) := p];
    ParkedSize(anchor, l, received, p);
    ParkedKeyed(l, p);
    OverflowStep(l, p, hasClient, wsAck);
    OverflowTold(l, l.state.(buffer := b));
    OverflowSeqs(anchor, l, received, b, SeqOf(p));
    assert l'.handed == l.handed + Values(b, Sorted(b.Keys));
  }

  /** The frame that puts 501 seqs ahead gives the gap up. */
  lemma {:induction false} OverflowAt501(anchor: Pending, evs: seq<LifeEvent>, hasClient: bool, wsAck: bool)
    requires OnlyFrames(evs) && evs != [] && KeptOpen(anchor, evs) && Within(anchor, evs[..|evs| - 1])
    requires |AheadOf(anchor, evs)| == 501
    ensures GaveUp(SeqOf(anchor), Received(anchor, evs), After(anchor, evs, hasClient, wsAck))
  {
    var init, p := evs[..|evs| - 1], evs[|evs| - 1].p;
    var l, received := After(anchor, init, hasClient, wsAck), Received(anchor, init);
    PrefixesOf(anchor, evs);
    assert init[..|init|] == init;
    InBoundInOrder(anchor, init, hasClient, wsAck);
    StillOpen(anchor, init, l);
    HandedInOrder(anchor, init, hasClient, wsAck);
    HandedInOrder(anchor, evs, hasClient, wsAck);
    ReceivedIs(anchor, evs);
    if SeqOf(p) <= l.state.next { OnlyParkAdds(anchor, l, received, p); }
    OverflowGivesUp(anchor, l, received, p, hasClient, wsAck);
  }
}
