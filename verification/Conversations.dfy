/** What reaches the choke point of one conversation, over successive lives of its
    order state and acking after dispatch (src/agentchatme/_realtime.py:1656-1659,
    1694-1991): frames, gap timers, history fills however late, closes and the stop.
    A state is discarded once it is idle, and the next frame anchors a new one
    wherever it is. What the handlers see of it is in `Sight`. */
module Conversations {
  import opened Wrappers
  import opened Envelopes
  import opened Ordering
  import opened OrderingLaws
  import opened Delivery
  import opened Lives

  /** `state` is None while the client keeps none. */
  datatype Conv = Conv(state: Option<OrderState>, handed: seq<Pending>, notices: seq<GapNotice>)

  datatype Happening = Frame(p: Pending) | TimerDue | FillBack(result: FillResult) | Closing | Stopping

  /** What an ordering step hands over and leaves. */
  function Take(c: Conv, oc: Outcome): Conv {
    Conv(if Idle(oc.state) then None else Some(oc.state),
         c.handed + oc.out,
         if oc.gap.Some? then c.notices + [oc.gap.value] else c.notices)
  }

  /** A frame anchors a state, is dropped below the cursor, or goes through the
      state there is. */
  function Arrive(c: Conv, p: Pending, life: nat): Conv {
    if c.state.None? then c.(state := Some(Anchored(SeqOf(p), life)), handed := c.handed + [p])
    else if SeqOf(p) < c.state.value.next then c
    else Take(c, Receive(c.state.value, SeqOf(p), p))
  }

  function Happen(c: Conv, h: Happening, life: nat, hasClient: bool): Conv {
    match h
    case Frame(p) => Arrive(c, p, life)
    case TimerDue => if c.state.Some? && c.state.value.timer then Take(c, TimerFired(c.state.value, hasClient)) else c
    case FillBack(result) =>
      if c.state.Some? && c.state.value.fillFrom.Some? then Take(c, FillReturned(c.state.value, result, true)) else c
    case Closing => c.(state := None)
    case Stopping => if c.state.Some? then Take(c, Flush(c.state.value, GapFillUnavailable)).(state := None) else c
  }

  function History(hs: seq<Happening>, hasClient: bool): Conv {
    if hs == [] then Conv(None, [], [])
    else Happen(History(hs[..|hs| - 1], hasClient), hs[|hs| - 1], |hs|, hasClient)
  }

  // ----- It is what the engine does -----

  /** This conversation's part of an engine. */
  function PartOf(e: Engine, conv: string, handed: seq<Pending>, notices: seq<GapNotice>): Conv {
    Conv(if conv in e.orders then Some(e.orders[conv]) else None, handed, notices)
  }

  /** The frames and the notice that c' has beyond c, delivered and reported. */
  function Told(core: Core, conv: string, c: Conv, c': Conv): Core
    requires |c'.handed| >= |c.handed|
  {
    Report(DeliverAll(core, c'.handed[|c.handed|..]), conv,
           if |c'.notices| > |c.notices| then Some(c'.notices[|c.notices|]) else None)
  }

  ghost predicate StepOf(e: Engine, e': Engine, conv: string, c: Conv, c': Conv) {
    && c'.state == PartOf(e', conv, [], []).state
    && |c'.handed| >= |c.handed| && e'.core == Told(e.core, conv, c, c')
  }

  lemma TakeIsCommit(e: Engine, conv: string, c: Conv, oc: Outcome)
    requires conv in e.orders && c.state == Some(e.orders[conv])
    ensures StepOf(e, Commit(e, conv, oc), conv, c, Take(c, oc))
  {
    assert (c.handed + oc.out)[|c.handed|..] == oc.out;
  }

  lemma {:induction false} FrameIsRoute(e: Engine, env: Envelope, wsAck: bool, c: Conv)
    requires env.body.conv.Some? && env.body.number.Some?
    requires c.state == PartOf(e, env.body.conv.value, [], []).state
    ensures StepOf(e, Route(e, env, wsAck, false).0, env.body.conv.value, c, Arrive(c, Pending(env, wsAck), e.lives))
  {
    var conv, p, s := env.body.conv.value, Pending(env, wsAck), env.body.number.value;
    if conv !in e.orders {
      assert (c.handed + [p])[|c.handed|..] == [p];
      OneDelivery(e.core, p);
    } else if s >= e.orders[conv].next {
      TakeIsCommit(e, conv, c, Receive(e.orders[conv], s, p));
    }
  }

  lemma OneDelivery(c: Core, p: Pending)
    ensures DeliverAll(c, [p]) == Deliver(c, p)
  {
    assert [p][..0] == [] && [p][0] == p;
    assert DeliverAll(c, []) == c;
  }

  /** A timer that fires, a fill that comes back and a close do to the engine, in
      this conversation, what they do here. */
  lemma {:induction false} HappenIsStep(e: Engine, conv: string, c: Conv, h: Happening, life: nat)
    requires !e.core.cfg.ackOnReceipt && c.state == PartOf(e, conv, [], []).state && c.state.Some?
    ensures h.TimerDue? && c.state.value.timer ==>
      StepOf(e, TimerStep(e, conv), conv, c, Happen(c, h, life, e.core.cfg.hasClient))
    ensures h.FillBack? && c.state.value.fillFrom.Some? ==>
      StepOf(e, FillStep(e, conv, h.result), conv, c, Happen(c, h, life, e.core.cfg.hasClient))
    ensures h.Closing? ==> forall order ::
      && Happen(c, h, life, e.core.cfg.hasClient) == PartOf(Closed(e, order), conv, c.handed, c.notices)
      && Closed(e, order).core == e.core.(connected := false, ackNegotiated := false)
  {
    if h.TimerDue? { TakeIsCommit(e, conv, c, TimerFired(c.state.value, e.core.cfg.hasClient)); }
    if h.FillBack? && c.state.value.fillFrom.Some? {
      TakeIsCommit(e, conv, c, FillReturned(c.state.value, h.result, true));
    }
  }

  /** So does the stop, conversation by conversation. */
  lemma {:induction false} StopIsFlush(e: Engine, conv: string, c: Conv, life: nat)
    requires conv in e.orders && c.state == Some(e.orders[conv])
    ensures var c' := Happen(c, Stopping, life, e.core.cfg.hasClient);
      |c'.handed| >= |c.handed| && FlushOne(e, conv, GapFillUnavailable).core == Told(e.core, conv, c, c')
  {
    var oc := Flush(e.orders[conv], GapFillUnavailable);
    assert (c.handed + oc.out)[|c.handed|..] == oc.out;
  }

  // ----- When the order holds -----

  ghost predicate Gapless(handed: seq<Pending>) {
    forall i :: 0 <= i < |handed| ==> SeqOf(handed[i]) == SeqOf(handed[0]) + i
  }

  /** A frame arrives while no state is kept, and is not the next one. */
  predicate AnchorsElsewhere(c: Conv, p: Pending) {
    c.state.None? && c.handed != [] && SeqOf(p) != SeqOf(c.handed[|c.handed| - 1]) + 1
  }

  /** A frame ahead of the cursor finds the buffer full. */
  predicate Overflows(c: Conv, p: Pending) {
    c.state.Some? && SeqOf(p) > c.state.value.next && |c.state.value.buffer[SeqOf(p) := p]| > 500
  }

  /** Everything parked or fetched follows on from the cursor without a hole. */
  ghost predicate FollowsOn(next: nat, merged: map<nat, Pending>) {
    (forall k :: k in merged ==> next <= k) && HoleFree(next, merged)
  }

  /** The happening gives a gap up, or anchors elsewhere. */
  ghost predicate Skips(c: Conv, h: Happening, hasClient: bool) {
    match h
    case Frame(p) => AnchorsElsewhere(c, p) || Overflows(c, p)
    case TimerDue => c.state.Some? && c.state.value.timer && !hasClient
    case FillBack(result) => c.state.Some? && c.state.value.fillFrom.Some? && FillSkips(c.state.value, result)
    case Closing => false
    case Stopping => c.state.Some? && c.state.value.buffer != map[]
  }

  ghost predicate FillSkips(o: OrderState, result: FillResult)
    requires o.fillFrom.Some?
  {
    match result
    case FillError => o.buffer != map[]
    case Fetched(rows) => !FollowsOn(o.next, Merge(o.buffer, o.fillFrom.value, rows, true))
  }

  ghost predicate Numbered(h: Happening) {
    h.Frame? ==> h.p.env.body.number.Some?
  }

  /** As long as the order held, the cursor is right behind the last hand-over. */
  ghost predicate Kept(c: Conv) {
    && (c.handed == [] ==> c.state.None?)
    && (c.state.Some? ==>
          Settled(c.state.value) && (Gapless(c.handed) ==> c.state.value.next == LastSeq(c.handed) + 1))
  }

  function LastSeq(handed: seq<Pending>): nat {
    if handed == [] then 0 else SeqOf(handed[|handed| - 1])
  }

  /** A settled state after a step whose hand-overs either follow on from the
      cursor, which then stands right behind them, or do not. */
  ghost predicate Proper(from: nat, oc: Outcome) {
    Settled(oc.state) && (Contiguous(from, oc.out) ==> oc.state.next == from + |oc.out|)
  }

  lemma OrderlyProper(from: nat, oc: Outcome)
    requires Settled(oc.state) && Orderly(from, oc)
    ensures Proper(from, oc)
  {
    if oc.out != [] && Contiguous(from, oc.out) { assert SeqOf(oc.out[|oc.out| - 1]) == from + |oc.out| - 1; }
  }

  lemma Appended(handed: seq<Pending>, out: seq<Pending>)
    requires handed != []
    ensures Gapless(handed + out) <==> Gapless(handed) && Contiguous(LastSeq(handed) + 1, out)
    ensures LastSeq(handed + out) == if out == [] then LastSeq(handed) else LastSeq(out)
  {
    var all, n := handed + out, |handed|;
    if Gapless(all) {
      forall i | 0 <= i < n ensures SeqOf(handed[i]) == SeqOf(handed[0]) + i { assert all[i] == handed[i]; }
      forall i | 0 <= i < |out| ensures SeqOf(out[i]) == SeqOf(handed[n - 1]) + 1 + i {
        assert all[n + i] == out[i] && all[n - 1] == handed[n - 1];
      }
    }
  }

  lemma TakeKept(c: Conv, oc: Outcome)
    requires Kept(c) && c.state.Some? && Proper(c.state.value.next, oc)
    ensures Kept(Take(c, oc))
    ensures Gapless(Take(c, oc).handed) <==> Gapless(c.handed) && Contiguous(c.state.value.next, oc.out)
  {
    Appended(c.handed, oc.out);
    if oc.out != [] && Contiguous(c.state.value.next, oc.out) {
      assert LastSeq(oc.out) == c.state.value.next + |oc.out| - 1;
    }
  }

  /** The first hand-over of a sorted flush above the cursor is not the next one. */
  lemma SkipsAhead(o: OrderState, out: seq<Pending>)
    requires o.buffer != map[] && Keyed(o.buffer) && forall k :: k in o.buffer ==> o.next < k
    requires out == Values(o.buffer, Sorted(o.buffer.Keys))
    ensures out != [] && !Contiguous(o.next, out)
  {
    assert o.buffer.Keys != {};
    ValueAt(o.buffer, 0);
    assert SeqOf(out[0]) != o.next;
  }

  lemma ResolveSkips(o: OrderState, buffered: Option<nat>, recovered: bool, reason: GapReason)
    requires Keyed(o.buffer) && forall k :: k in o.buffer ==> o.next < k
    ensures Contiguous(o.next, Resolve(o, buffered, recovered, reason).out) <==> o.buffer == map[]
  {
    if o.buffer != map[] { SkipsAhead(o, Resolve(o, buffered, recovered, reason).out); }
  }

  lemma FrameKept(c: Conv, p: Pending, life: nat)
    requires Kept(c) && p.env.body.number.Some?
    ensures Kept(Arrive(c, p, life))
    ensures Gapless(Arrive(c, p, life).handed) <==> Gapless(c.handed) && !AnchorsElsewhere(c, p) && !Overflows(c, p)
  {
    if c.state.None? {
      if c.handed != [] {
        Appended(c.handed, [p]);
        assert [p][0] == p;
      }
    } else if SeqOf(p) >= c.state.value.next {
      var o := c.state.value;
      var oc := Receive(o, SeqOf(p), p);
      ReceiveOk(o, p);
      OrderlyProper(o.next, oc);
      TakeKept(c, oc);
      if Overflows(c, p) { OverflowSkips(o, p); }
    }
  }

  lemma OverflowSkips(o: OrderState, p: Pending)
    requires Settled(o) && p.env.body.number.Some? && SeqOf(p) > o.next && |o.buffer[SeqOf(p) := p]| > 500
    ensures !Contiguous(o.next, Receive(o, SeqOf(p), p).out)
  {
    var o1 := o.(buffer := o.buffer[SeqOf(p) := p]);
    assert SeqOf(p) in o1.buffer;
    ResolveSkips(o1, LeastParked(o1), false, BufferOverflow);
  }

  lemma TimerKept(c: Conv, life: nat, hasClient: bool)
    requires Kept(c) && c.state.Some? && c.state.value.timer
    ensures var oc := TimerFired(c.state.value, hasClient);
      Proper(c.state.value.next, oc) && (Contiguous(c.state.value.next, oc.out) <==> hasClient)
  {
    var o := c.state.value;
    TimerOk(o, hasClient);
    OrderlyProper(o.next, TimerFired(o, hasClient));
    var o1 := o.(timer := false);
    if !hasClient { ResolveSkips(o1, LeastParked(o1), false, GapFillUnavailable); }
  }

  /** A fill's hand-overs follow on exactly when everything merged does. */
  lemma MergedFollowsOn(o: OrderState)
    requires Keyed(o.buffer)
    ensures Contiguous(o.next, MergedOutcome(o).out) <==> FollowsOn(o.next, o.buffer)
  {
    if forall k :: k in o.buffer ==> o.next <= k {
      NoHole(o);
    } else {
      var k :| k in o.buffer && k < o.next;
      var i := MergedHas(o, k);
      assert SeqOf(MergedOutcome(o).out[i]) < o.next;
    }
  }

  lemma MergedProper(o: OrderState)
    requires Keyed(o.buffer) && Settled(MergedOutcome(o).state)
    ensures Proper(o.next, MergedOutcome(o))
  {
    MergedFollowsOn(o);
    if FollowsOn(o.next, o.buffer) {
      MergedOrderly(o);
      OrderlyProper(o.next, MergedOutcome(o));
    }
  }

  lemma FillKept(o: OrderState, result: FillResult)
    requires Settled(o) && o.fillFrom.Some?
    ensures var oc := FillReturned(o, result, true);
      Proper(o.next, oc) && (Contiguous(o.next, oc.out) <==> !FillSkips(o, result))
  {
    if result.FillError? { FailedFill(o); } else { FetchedFill(o, result.rows); }
  }

  lemma FailedFill(o: OrderState)
    requires Settled(o) && o.fillFrom.Some?
    ensures var oc := FillReturned(o, FillError, true);
      Proper(o.next, oc) && (Contiguous(o.next, oc.out) <==> o.buffer == map[])
  {
    FillOk(o, FillError, true);
    var o1 := o.(fillFrom := None);
    ResolveOrderly(o1, LeastParked(o1), false, GapFillFailed);
    OrderlyProper(o.next, FillReturned(o, FillError, true));
    ResolveSkips(o1, LeastParked(o1), false, GapFillFailed);
  }

  lemma FetchedFill(o: OrderState, rows: seq<Body>)
    requires Settled(o) && o.fillFrom.Some?
    ensures var oc := FillReturned(o, Fetched(rows), true);
      && Proper(o.next, oc)
      && (Contiguous(o.next, oc.out) <==> FollowsOn(o.next, Merge(o.buffer, o.fillFrom.value, rows, true)))
  {
    FillOk(o, Fetched(rows), true);
    var b := Merge(o.buffer, o.fillFrom.value, rows, true);
    MergedStaysKeyed(o, rows);
    var o2 := o.(fillFrom := None, buffer := b);
    assert FillReturned(o, Fetched(rows), true) == MergedOutcome(o2);
    MergedProper(o2);
    MergedFollowsOn(o2);
  }

  lemma MergedStaysKeyed(o: OrderState, rows: seq<Body>)
    requires Settled(o) && o.fillFrom.Some?
    ensures Keyed(Merge(o.buffer, o.fillFrom.value, rows, true))
  {
    MergeFacts(o.buffer, o.fillFrom.value, rows, true);
  }

  lemma FlushSkips(o: OrderState, reason: GapReason)
    requires Settled(o)
    ensures Contiguous(o.next, Flush(o, reason).out) <==> o.buffer == map[]
  {
    if o.buffer != map[] { SkipsAhead(o, Flush(o, reason).out); } else { assert Flush(o, reason).out == []; }
  }

  lemma StopKept(c: Conv, life: nat, hasClient: bool)
    requires Kept(c) && c.state.Some?
    ensures var c' := Happen(c, Stopping, life, hasClient);
      c'.state.None? && c'.handed != [] && (Gapless(c'.handed) <==> Gapless(c.handed) && c.state.value.buffer == map[])
  {
    FlushSkips(c.state.value, GapFillUnavailable);
    GoesOn(c.handed, Flush(c.state.value, GapFillUnavailable).out, c.state.value.next);
  }

  lemma GoesOn(handed: seq<Pending>, out: seq<Pending>, next: nat)
    requires handed != [] && (Gapless(handed) ==> next == LastSeq(handed) + 1)
    ensures handed + out != [] && (Gapless(handed + out) <==> Gapless(handed) && Contiguous(next, out))
  {
    Appended(handed, out);
  }

  /** One happening: the order goes on holding exactly if it does not skip. */
  lemma {:induction false} HappenKept(c: Conv, h: Happening, life: nat, hasClient: bool)
    requires Kept(c) && Numbered(h)
    ensures Kept(Happen(c, h, life, hasClient))
    ensures Gapless(Happen(c, h, life, hasClient).handed) <==> Gapless(c.handed) && !Skips(c, h, hasClient)
  {
    match h
    case Frame(p) => FrameKept(c, p, life);
    case TimerDue =>
      if c.state.Some? && c.state.value.timer {
        TimerKept(c, life, hasClient);
        TakeKept(c, TimerFired(c.state.value, hasClient));
      }
    case FillBack(result) =>
      if c.state.Some? && c.state.value.fillFrom.Some? {
        FillKept(c.state.value, result);
        TakeKept(c, FillReturned(c.state.value, result, true));
      }
    case Closing =>
    case Stopping => if c.state.Some? { StopKept(c, life, hasClient); }
  }

  lemma {:induction false} HistoryKept(hs: seq<Happening>, hasClient: bool)
    requires forall i :: 0 <= i < |hs| ==> Numbered(hs[i])
    ensures Kept(History(hs, hasClient))
  {
    if hs != [] {
      HistoryKept(hs[..|hs| - 1], hasClient);
      HappenKept(History(hs[..|hs| - 1], hasClient), hs[|hs| - 1], |hs|, hasClient);
    }
  }

  ghost predicate GaplessSoFar(hs: seq<Happening>, hasClient: bool) {
    Gapless(History(hs, hasClient).handed)
  }

  /** No happening of the history skipped. */
  ghost predicate NoneSkips(hs: seq<Happening>, hasClient: bool) {
    hs == [] ||
    var n := |hs| - 1;
    NoneSkips(hs[..n], hasClient) && !Skips(History(hs[..n], hasClient), hs[n], hasClient)
  }

  /** Over any history, acking after dispatch, what reaches the choke point is in seq
      order, without a gap or a repeat, exactly when nothing skipped: no frame anchored
      elsewhere or overflowed, no gap was given up, and every fill followed on from
      the cursor. */
  lemma {:induction false} OrderHoldsExactly(hs: seq<Happening>, hasClient: bool)
    requires forall i :: 0 <= i < |hs| ==> Numbered(hs[i])
    ensures GaplessSoFar(hs, hasClient) <==> NoneSkips(hs, hasClient)
  {
    if hs != [] {
      var n := |hs| - 1;
      OrderHoldsExactly(hs[..n], hasClient);
      HistoryKept(hs[..n], hasClient);
      HappenKept(History(hs[..n], hasClient), hs[n], |hs|, hasClient);
    }
  }

  // ----- Where it does not -----

  lemma EmptyRun(o: OrderState)
    requires o.buffer == map[]
    ensures DrainRun(o).1 == [] && DrainRun(o).0 == o
  {
    var n := RunLength(o.buffer.Keys, o.next);
    assert IsRun(o.buffer.Keys, o.next, n) && o.next !in o.buffer.Keys;
    assert Outside(o.buffer, o.next, o.next + n) == map[];
  }

  lemma InOrderIdles(o: OrderState, p: Pending)
    requires o.buffer == map[] && !o.timer && o.fillFrom.None?
    ensures InOrder(o, p).out == [p] && Idle(InOrder(o, p).state) && InOrder(o, p).gap.None?
  {
    EmptyRun(o.(next := o.next + 1));
  }

  function Numbers(s: nat): Pending {
    Pending(Envelope(Body(None, Some("c"), Some(s)), None), true)
  }

  /** Seqs 1, 2, 4, 3: the second frame leaves the state idle, 4 anchors a new
      one, and 3 is dropped below it, unreported. */
  lemma {:induction false} OrderBreaks(hasClient: bool)
    ensures var c := History([Frame(Numbers(1)), Frame(Numbers(2)), Frame(Numbers(4)), Frame(Numbers(3))], hasClient);
      c.handed == [Numbers(1), Numbers(2), Numbers(4)] && c.notices == []
  {
    var a := [Frame(Numbers(1))];
    var b := a + [Frame(Numbers(2))];
    var d := b + [Frame(Numbers(4))];
    HistoryMore([], Frame(Numbers(1)), hasClient);
    assert [] + a == a;
    assert History(a, hasClient) == Conv(Some(Anchored(1, 1)), [Numbers(1)], []);
    HistoryMore(a, Frame(Numbers(2)), hasClient);
    InOrderIdles(Anchored(1, 1), Numbers(2));
    assert History(b, hasClient) == Conv(None, [Numbers(1), Numbers(2)], []);
    HistoryMore(b, Frame(Numbers(4)), hasClient);
    assert History(d, hasClient) == Conv(Some(Anchored(4, 3)), [Numbers(1), Numbers(2), Numbers(4)], []);
    HistoryMore(d, Frame(Numbers(3)), hasClient);
    assert d + [Frame(Numbers(3))] == [Frame(Numbers(1)), Frame(Numbers(2)), Frame(Numbers(4)), Frame(Numbers(3))];
  }

  lemma HistoryMore(hs: seq<Happening>, h: Happening, hasClient: bool)
    ensures History(hs + [h], hasClient) == Happen(History(hs, hasClient), h, |hs| + 1, hasClient)
  {
    assert (hs + [h])[..|hs|] == hs;
  }
}
