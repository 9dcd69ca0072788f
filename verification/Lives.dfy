/** Whole lives of one order state, from the frame that anchors it until the
    step that leaves it idle and discards it, or the flush at its end. A gap timer
    and its history fill count as one step here. A frame below the cursor does not
    go through the state. */
module Lives {
  import opened Wrappers
  import opened Envelopes
  import opened Ordering
  import opened OrderingLaws

  datatype LifeEvent = Came(p: Pending) | GapDue(result: FillResult) | Flushed(reason: GapReason)

  datatype Life = Life(state: OrderState, open: bool, handed: seq<Pending>, notices: seq<GapNotice>)

  ghost predicate Numbered(evs: seq<LifeEvent>) {
    forall i :: 0 <= i < |evs| && evs[i].Came? ==> evs[i].p.env.body.number.Some?
  }

  function GapStep(o: OrderState, result: FillResult, hasClient: bool, wsAck: bool): Outcome {
    var fired := TimerFired(o, hasClient);
    if fired.state.fillFrom.Some? then FillReturned(fired.state, result, wsAck) else fired
  }

  function Step(l: Life, ev: LifeEvent, hasClient: bool, wsAck: bool): Life {
    if !l.open then l
    else if ev.GapDue? && !l.state.timer then l
    else if ev.Came? && SeqOf(ev.p) < l.state.next then l
    else if ev.Flushed? then Took(l, Flush(l.state, ev.reason)).(open := false)
    else
      var oc := if ev.Came? then Receive(l.state, SeqOf(ev.p), ev.p) else GapStep(l.state, ev.result, hasClient, wsAck);
      Took(l, oc)
  }

  function Took(l: Life, oc: Outcome): Life {
    Life(oc.state, !Idle(oc.state), l.handed + oc.out, if oc.gap.Some? then l.notices + [oc.gap.value] else l.notices)
  }

  function After(anchor: Pending, evs: seq<LifeEvent>, hasClient: bool, wsAck: bool): Life {
    if evs == [] then Life(Anchored(SeqOf(anchor), 0), true, [anchor], [])
    else Step(After(anchor, evs[..|evs| - 1], hasClient, wsAck), evs[|evs| - 1], hasClient, wsAck)
  }

  // ----- A fill within its own step -----

  lemma RunAt(o: OrderState, i: nat)
    requires Keyed(o.buffer) && i < |DrainRun(o).1|
    ensures var p := DrainRun(o).1[i]; o.next + i in o.buffer && p == o.buffer[o.next + i] && SeqOf(p) == o.next + i
  {
    assert o.next + i in o.buffer.Keys;
  }

  /** Hand-over p is either the i-th of the run or comes after it, sorted. */
  ghost predicate HandedAt(o: OrderState, run: seq<Pending>, rest: map<nat, Pending>, i: nat, p: Pending) {
    && SeqOf(p) in o.buffer && p == o.buffer[SeqOf(p)]
    && (i < |run| ==> SeqOf(p) == o.next + i && p == run[i])
    && (|run| <= i < |run| + |rest.Keys| ==> SeqOf(p) in rest && SeqOf(p) == Sorted(rest.Keys)[i - |run|])
  }

  /** The i-th hand-over of a fill. */
  lemma MergedAt(o: OrderState, i: nat)
    requires Keyed(o.buffer) && i < |MergedOutcome(o).out|
    ensures |MergedOutcome(o).out| == |DrainRun(o).1| + |DrainRun(o).0.buffer.Keys|
    ensures HandedAt(o, DrainRun(o).1, DrainRun(o).0.buffer, i, MergedOutcome(o).out[i])
  {
    PartsAt(o, DrainRun(o).1, DrainRun(o).0.buffer, MergedOutcome(o).out, i);
  }

  lemma PartsAt(o: OrderState, run: seq<Pending>, rest: map<nat, Pending>, out: seq<Pending>, i: nat)
    requires Keyed(o.buffer) && run == DrainRun(o).1 && rest == DrainRun(o).0.buffer
    requires out == run + Values(rest, Sorted(rest.Keys)) && i < |out|
    ensures |out| == |run| + |rest.Keys| && HandedAt(o, run, rest, i, out[i])
  {
    var keys := Sorted(rest.Keys);
    assert |out| == |run| + |keys|;
    if i < |run| {
      RunAt(o, i);
      assert out[i] == run[i];
    } else {
      var j := i - |run|;
      assert keys[j] in keys && out[i] == Values(rest, keys)[j];
      assert out[i] == rest[keys[j]] == o.buffer[keys[j]];
    }
  }

  lemma MergedAscends(o: OrderState, i: nat, j: nat)
    requires Keyed(o.buffer) && forall k :: k in o.buffer ==> o.next <= k
    requires i < j < |MergedOutcome(o).out|
    ensures SeqOf(MergedOutcome(o).out[i]) < SeqOf(MergedOutcome(o).out[j])
  {
    MergedAt(o, i);
    MergedAt(o, j);
  }

  lemma MergedCursor(o: OrderState)
    requires Keyed(o.buffer) && forall k :: k in o.buffer ==> o.next <= k
    ensures var oc := MergedOutcome(o);
      oc.state.next == if oc.out == [] then o.next else SeqOf(oc.out[|oc.out| - 1]) + 1
  {
    var oc, run := MergedOutcome(o), DrainRun(o);
    var keys := Sorted(run.0.buffer.Keys);
    assert |oc.out| == |run.1| + |keys|;
    if keys == [] {
      assert oc.state.next == run.0.next;
      if oc.out != [] { MergedAt(o, |oc.out| - 1); }
    } else {
      assert keys[|keys| - 1] in run.0.buffer;
      assert run.0.next <= keys[|keys| - 1];
      assert oc.state.next == keys[|keys| - 1] + 1;
      MergedAt(o, |oc.out| - 1);
    }
  }

  lemma MergedOrderly(o: OrderState)
    requires Keyed(o.buffer) && forall k :: k in o.buffer ==> o.next <= k
    ensures Orderly(o.next, MergedOutcome(o))
  {
    var out := MergedOutcome(o).out;
    MergedCursor(o);
    forall i, j | 0 <= i < j < |out| ensures SeqOf(out[i]) < SeqOf(out[j]) { MergedAscends(o, i, j); }
    forall i | 0 <= i < |out| ensures o.next <= SeqOf(out[i]) { MergedAt(o, i); }
  }

  lemma MergedKeyed(o: OrderState, rows: seq<Body>, wsAck: bool)
    requires Settled(o)
    ensures var b := Merge(o.buffer, o.next, rows, wsAck);
      Keyed(b) && forall k :: k in b ==> o.next <= k
  {
    MergeFacts(o.buffer, o.next, rows, wsAck);
    var b := Merge(o.buffer, o.next, rows, wsAck);
    forall k | k in b ensures b[k].env.body.number == Some(k) && o.next <= k {}
  }

  /** The merged buffer of a fill that starts at the cursor lies above it. */
  lemma FillFromCursor(o: OrderState, result: FillResult, wsAck: bool)
    requires Settled(o) && o.fillFrom == Some(o.next)
    ensures Orderly(o.next, FillReturned(o, result, wsAck))
  {
    var o1 := o.(fillFrom := None);
    match result
    case FillError => ResolveOrderly(o1, LeastParked(o1), false, GapFillFailed);
    case Fetched(rows) =>
      MergedKeyed(o, rows, wsAck);
      var o2 := o1.(buffer := Merge(o.buffer, o.next, rows, wsAck));
      assert FillReturned(o, result, wsAck) == MergedOutcome(o2);
      MergedOrderly(o2);
  }

  ghost predicate HoleFree(from: nat, buffer: map<nat, Pending>) {
    forall k, s :: k in buffer && from <= s <= k ==> s in buffer
  }

  lemma HoleFreeRuns(o: OrderState)
    requires Keyed(o.buffer) && forall k :: k in o.buffer ==> o.next <= k
    requires HoleFree(o.next, o.buffer)
    ensures Contiguous(o.next, MergedOutcome(o).out)
  {
    var run, out := DrainRun(o), MergedOutcome(o).out;
    assert run.0.next !in o.buffer.Keys;
    forall i | 0 <= i < |out| ensures SeqOf(out[i]) == o.next + i {
      MergedAt(o, i);
      assert SeqOf(out[i]) in o.buffer && o.next <= run.0.next;
    }
  }

  lemma MergedHas(o: OrderState, k: nat) returns (i: nat)
    requires Keyed(o.buffer) && k in o.buffer
    ensures i < |MergedOutcome(o).out| && MergedOutcome(o).out[i] == o.buffer[k]
  {
    MergedFill(o);
    var p, out := o.buffer[k], MergedOutcome(o).out;
    assert p in out;
    i :| 0 <= i < |out| && out[i] == p;
  }

  ghost predicate DrawnFrom(buffer: map<nat, Pending>, out: seq<Pending>) {
    forall i :: 0 <= i < |out| ==> SeqOf(out[i]) in buffer
  }

  lemma MergedDrawn(o: OrderState)
    requires Keyed(o.buffer)
    ensures DrawnFrom(o.buffer, MergedOutcome(o).out)
  {
    var out := MergedOutcome(o).out;
    forall i | 0 <= i < |out| ensures SeqOf(out[i]) in o.buffer { MergedAt(o, i); }
  }

  lemma RunsCover(buffer: map<nat, Pending>, from: nat, out: seq<Pending>, i: nat, s: nat)
    requires Contiguous(from, out) && DrawnFrom(buffer, out)
    requires i < |out| && from <= s <= SeqOf(out[i])
    ensures s in buffer
  {
    assert SeqOf(out[i]) == from + i;
    assert SeqOf(out[s - from]) == s;
  }

  lemma RunsHoleFree(o: OrderState)
    requires Keyed(o.buffer) && Contiguous(o.next, MergedOutcome(o).out)
    ensures HoleFree(o.next, o.buffer)
  {
    MergedDrawn(o);
    forall k, s | k in o.buffer && o.next <= s <= k ensures s in o.buffer {
      var i := MergedHas(o, k);
      RunsCover(o.buffer, o.next, MergedOutcome(o).out, i, s);
    }
  }

  lemma NoHole(o: OrderState)
    requires Keyed(o.buffer) && forall k :: k in o.buffer ==> o.next <= k
    ensures Contiguous(o.next, MergedOutcome(o).out) <==> HoleFree(o.next, o.buffer)
  {
    if HoleFree(o.next, o.buffer) { HoleFreeRuns(o); }
    if Contiguous(o.next, MergedOutcome(o).out) { RunsHoleFree(o); }
  }

  lemma FillIsMerge(o: OrderState, rows: seq<Body>, wsAck: bool)
    requires o.fillFrom == Some(o.next)
    ensures FillReturned(o, Fetched(rows), wsAck) ==
            MergedOutcome(o.(fillFrom := None, buffer := Merge(o.buffer, o.next, rows, wsAck)))
  {}

  lemma MergedReaches(o: OrderState, top: nat)
    requires Keyed(o.buffer) && o.next <= top && forall s :: o.next <= s <= top ==> s in o.buffer
    ensures var oc := MergedOutcome(o);
      |oc.out| > top - o.next && forall i :: 0 <= i <= top - o.next ==> oc.out[i] == o.buffer[o.next + i]
  {
    var run, oc := DrainRun(o), MergedOutcome(o);
    assert run.0.next !in o.buffer.Keys;
    assert |run.1| > top - o.next;
    forall i | 0 <= i <= top - o.next ensures oc.out[i] == o.buffer[o.next + i] {
      assert o.next + i in o.buffer.Keys;
      assert oc.out[i] == run.1[i];
    }
  }

  /** What a fill achieves when every seq from the cursor through `top` is parked
      or fetched: the hand-overs run through `top` without a hole, every merged
      frame goes out in increasing order (so once), nothing stays parked, and the
      gap is reported recovered. There is no hole at all exactly when the merged
      frames have none. */
  ghost predicate Completes(from: nat, merged: map<nat, Pending>, top: nat, oc: Outcome) {
    && |oc.out| > top - from
    && (forall i :: 0 <= i <= top - from ==> from + i in merged && oc.out[i] == merged[from + i])
    && Orderly(from, oc) && Keeps(merged, oc) && oc.state.buffer == map[]
    && oc.gap.Some? && oc.gap.value.recovered
    && (Contiguous(from, oc.out) <==> HoleFree(from, merged))
  }

  lemma MergedCompletes(o: OrderState, top: nat)
    requires Keyed(o.buffer) && o.next <= top && forall k :: k in o.buffer ==> o.next <= k
    requires forall s :: o.next <= s <= top ==> s in o.buffer
    ensures Completes(o.next, o.buffer, top, MergedOutcome(o))
  {
    MergedReaches(o, top);
    MergedOrderly(o);
    MergedFill(o);
    NoHole(o);
  }

  lemma {:induction false} GapFillComplete(o: OrderState, rows: seq<Body>, wsAck: bool, top: nat)
    requires Settled(o) && o.fillFrom == Some(o.next) && o.next <= top
    requires forall s :: o.next <= s <= top ==> s in Merge(o.buffer, o.next, rows, wsAck)
    ensures Completes(o.next, Merge(o.buffer, o.next, rows, wsAck), top, FillReturned(o, Fetched(rows), wsAck))
  {
    MergedKeyed(o, rows, wsAck);
    FillIsMerge(o, rows, wsAck);
    MergedCompletes(o.(fillFrom := None, buffer := Merge(o.buffer, o.next, rows, wsAck)), top);
  }

  // ----- Order over a life -----

  lemma GapStepFacts(o: OrderState, result: FillResult, hasClient: bool, wsAck: bool)
    requires Settled(o) && o.timer && o.fillFrom.None?
    ensures var oc := GapStep(o, result, hasClient, wsAck);
      Settled(oc.state) && Orderly(o.next, oc) && oc.gap.Some? && Idle(oc.state)
  {
    TimerOk(o, hasClient);
    var fired := TimerFired(o, hasClient);
    if fired.state.fillFrom.Some? {
      FillFromCursor(fired.state, result, wsAck);
      FillOk(fired.state, result, wsAck);
    }
  }

  ghost predicate Ascends(from: nat, out: seq<Pending>) {
    && (forall i, j :: 0 <= i < j < |out| ==> SeqOf(out[i]) < SeqOf(out[j]))
    && (forall i :: 0 <= i < |out| ==> from <= SeqOf(out[i]))
  }

  ghost predicate LifeOk(anchor: Pending, l: Life) {
    && Settled(l.state) && l.state.fillFrom.None?
    && l.handed != [] && l.handed[0] == anchor
    && Ascends(0, l.handed)
    && (l.open ==> l.state.next == SeqOf(l.handed[|l.handed| - 1]) + 1)
    && (l.notices == [] ==> Contiguous(SeqOf(anchor), l.handed))
  }

  lemma LifeStepOk(anchor: Pending, l: Life, ev: LifeEvent, hasClient: bool, wsAck: bool)
    requires LifeOk(anchor, l) && (ev.Came? ==> ev.p.env.body.number.Some?)
    ensures LifeOk(anchor, Step(l, ev, hasClient, wsAck))
  {
    if !l.open || (ev.GapDue? && !l.state.timer) || (ev.Came? && SeqOf(ev.p) < l.state.next) {
      assert Step(l, ev, hasClient, wsAck) == l;
    } else if ev.Flushed? {
      FlushEnds(anchor, l, ev.reason);
    } else {
      var oc := if ev.Came? then Receive(l.state, SeqOf(ev.p), ev.p) else GapStep(l.state, ev.result, hasClient, wsAck);
      if ev.GapDue? { GapStepFacts(l.state, ev.result, hasClient, wsAck); } else { ReceiveOk(l.state, ev.p); }
      HandedOn(anchor, l, oc);
    }
  }

  /** The flush goes on above the cursor, which it does not move. */
  lemma FlushEnds(anchor: Pending, l: Life, reason: GapReason)
    requires LifeOk(anchor, l) && l.open
    ensures LifeOk(anchor, Took(l, Flush(l.state, reason)).(open := false))
  {
    var oc := Flush(l.state, reason);
    FlushAscends(l.state, reason);
    Longer(anchor, l, oc.out);
  }

  lemma FlushAscends(o: OrderState, reason: GapReason)
    requires Settled(o)
    ensures var oc := Flush(o, reason);
      && Ascends(o.next, oc.out) && Settled(oc.state) && oc.state.fillFrom == o.fillFrom
      && (oc.gap.None? ==> oc.out == [])
  {
    FlushOk(o, reason);
  }

  lemma HandedOn(anchor: Pending, l: Life, oc: Outcome)
    requires LifeOk(anchor, l) && l.open && Orderly(l.state.next, oc)
    requires Settled(oc.state) && oc.state.fillFrom.None?
    ensures LifeOk(anchor, Took(l, oc))
  {
    Longer(anchor, l, oc.out);
  }

  lemma Longer(anchor: Pending, l: Life, out: seq<Pending>)
    requires LifeOk(anchor, l) && l.open && Ascends(l.state.next, out)
    ensures var h := l.handed + out;
      && Ascends(0, h) && h[0] == anchor
      && SeqOf(h[|h| - 1]) == (if out == [] then l.state.next - 1 else SeqOf(out[|out| - 1]))
      && (l.notices == [] && Contiguous(l.state.next, out) ==> Contiguous(SeqOf(anchor), h))
  {
    var h, n := l.handed + out, |l.handed|;
    forall i | 0 <= i < n ensures SeqOf(h[i]) < l.state.next {
      if i < n - 1 { assert SeqOf(l.handed[i]) < SeqOf(l.handed[n - 1]); }
    }
    if l.notices == [] {
      assert SeqOf(l.handed[n - 1]) == SeqOf(anchor) + n - 1;
    }
  }

  /** Whatever happens in a life, its flush included, the seqs handed over strictly
      increase, the cursor stays right behind the last one as long as the life goes
      on, and unless a gap was reported none was skipped. */
  lemma {:induction false} HandedInOrder(anchor: Pending, evs: seq<LifeEvent>, hasClient: bool, wsAck: bool)
    requires Numbered(evs)
    ensures LifeOk(anchor, After(anchor, evs, hasClient, wsAck))
  {
    if evs != [] {
      HandedInOrder(anchor, evs[..|evs| - 1], hasClient, wsAck);
      LifeStepOk(anchor, After(anchor, evs[..|evs| - 1], hasClient, wsAck), evs[|evs| - 1], hasClient, wsAck);
    }
  }

  // ----- The buffer against its simple meaning -----

  function Received(anchor: Pending, evs: seq<LifeEvent>): set<nat> {
    {SeqOf(anchor)} + set i | 0 <= i < |evs| && evs[i].Came? :: SeqOf(evs[i].p)
  }

  ghost predicate OnlyFrames(evs: seq<LifeEvent>) {
    forall i :: 0 <= i < |evs| ==> evs[i].Came? && evs[i].p.env.body.number.Some?
  }

  /** The longest run from the anchor within what was received has been handed
      over, and exactly the seqs above it are parked. */
  ghost predicate MeetsSpec(a: nat, received: set<nat>, l: Life) {
    && l.state.next == a + |l.handed|
    && Contiguous(a, l.handed)
    && (forall s :: a <= s < l.state.next ==> s in received)
    && l.state.next !in received
    && (forall s :: s in l.state.buffer <==> s in received && s > l.state.next)
  }

  lemma ReceivedMore(anchor: Pending, evs: seq<LifeEvent>, s: nat)
    requires OnlyFrames(evs) && evs != []
    ensures s in Received(anchor, evs) <==>
            s in Received(anchor, evs[..|evs| - 1]) || s == SeqOf(evs[|evs| - 1].p)
  {
    var init := evs[..|evs| - 1];
    if s in Received(anchor, init) && s != SeqOf(anchor) {
      var i :| 0 <= i < |init| && SeqOf(init[i].p) == s;
      assert evs[i] == init[i];
    }
    if s in Received(anchor, evs) && s != SeqOf(anchor) && s != SeqOf(evs[|evs| - 1].p) {
      var i :| 0 <= i < |evs| && SeqOf(evs[i].p) == s;
      assert evs[i] == init[i];
    }
  }

  lemma MeetsSpecInOrder(a: nat, received: set<nat>, l: Life, p: Pending)
    requires MeetsSpec(a, received, l) && Settled(l.state) && p.env.body.number == Some(l.state.next)
    ensures var oc := InOrder(l.state, p);
      MeetsSpec(a, received + {SeqOf(p)}, Life(oc.state, !Idle(oc.state), l.handed + oc.out, l.notices))
  {
    var o := l.state;
    var o1, oc := o.(next := o.next + 1), InOrder(o, p);
    assert oc.state.next !in o1.buffer.Keys;
    forall k | o1.next <= k < oc.state.next ensures k in received { assert k in o1.buffer.Keys; }
    forall i | 0 <= i < |oc.out| ensures SeqOf(oc.out[i]) == o.next + i { InOrderOut(o, p, i); }
  }

  lemma MeetsSpecStep(a: nat, received: set<nat>, l: Life, p: Pending, hasClient: bool, wsAck: bool)
    requires MeetsSpec(a, received, l) && Settled(l.state) && l.open && p.env.body.number.Some?
    requires Step(l, Came(p), hasClient, wsAck).notices == l.notices
    ensures MeetsSpec(a, received + {SeqOf(p)}, Step(l, Came(p), hasClient, wsAck))
  {
    var o, s := l.state, SeqOf(p);
    if s == o.next {
      MeetsSpecInOrder(a, received, l, p);
      assert l.notices + [] == l.notices;
    } else if s > o.next {
      var b := o.buffer[s := p];
      assert |b| <= 500;
      assert l.handed + [] == l.handed;
    }
  }

  lemma SpecDetermines(a: nat, received: set<nat>, x: Life, y: Life)
    requires MeetsSpec(a, received, x) && MeetsSpec(a, received, y)
    ensures SeqsOf(x.handed) == SeqsOf(y.handed) && x.state.buffer.Keys == y.state.buffer.Keys
  {
    assert x.state.next == y.state.next;
  }
}
