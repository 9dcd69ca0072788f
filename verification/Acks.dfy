/** Exactly which delivery acks go out (src/agentchatme/_realtime.py:980-997, 1604-1644,
    1817-1839), read off the log. */
module Acks {
  import opened Wrappers
  import opened Envelopes
  import opened Ordering
  import opened OrderingLaws
  import opened Delivery
  import opened DeliveryLaws

  // ----- One delivery -----

  /** What becomes of a frame at the choke point: known already, or handed over,
      cleanly or not. */
  datatype Fate = Fate(p: Pending, known: bool, clean: bool)

  /** An unknown frame is handed over; an eligible one with an id is acked, right
      after it was handed over cleanly or because it is known. */
  function Told(negotiated: bool, f: Fate): Log {
    var id := f.p.env.body.id;
    (if f.known then [] else [Handed(f.p.env.body, f.clean)])
    + (if negotiated && f.p.wsAck && id.Some? && (f.known || f.clean) then [Acked(id.value)] else [])
  }

  function FateOf(c: Core, p: Pending): Fate {
    Fate(p, Known(c, p.env.body.id), c.cfg.settles(|c.log|))
  }

  /** A delivery logs that and nothing else, and settles a drain row as clean exactly
      if it is known or was handed over cleanly. */
  lemma DeliverTells(c: Core, p: Pending)
    ensures var c', f := Deliver(c, p), FateOf(c, p);
      && c'.log == c.log + Told(c.ackNegotiated, f)
      && c'.settlements == (if p.env in c.settlements then c.settlements[p.env := Some(f.known || f.clean)]
                            else c.settlements)
      && c' == c.(log := c'.log, settlements := c'.settlements, dedup := c'.dedup)
  {
    var id, f := p.env.body.id, FateOf(c, p);
    if f.known {
      SettledAck(Refresh(c, id.value), id, p.wsAck, p.env, true);
    } else if f.clean {
      SettledAck(Remember(Dispatch(c, p.env.body), id), id, p.wsAck, p.env, true);
      var ack: Log := if c.ackNegotiated && p.wsAck && id.Some? then [Acked(id.value)] else [];
      assert c.log + [Handed(p.env.body, true)] + ack == c.log + Told(c.ackNegotiated, f);
    } else {
      SettledAck(Dispatch(c, p.env.body), None, false, p.env, false);
    }
  }

  lemma SettledAck(c: Core, id: Option<string>, wanted: bool, env: Envelope, ok: bool)
    ensures var c' := Settle(SendAckIf(c, id, wanted), env, ok);
      && c'.log == c.log + (if c.ackNegotiated && wanted && id.Some? then [Acked(id.value)] else [])
      && c'.settlements == (if env in c.settlements then c.settlements[env := Some(ok)] else c.settlements)
      && c' == c.(log := c'.log, settlements := c'.settlements)
  {
  }

  /** An eligible delivery acks its id exactly if the id was remembered or the
      handlers settled cleanly. */
  lemma AckedIff(c: Core, p: Pending, x: string)
    requires c.ackNegotiated && p.wsAck && p.env.body.id == Some(x)
    ensures Acked(x) in Deliver(c, p).log[|c.log|..] <==> x in c.dedup || c.cfg.settles(|c.log|)
  {
    DeliverTells(c, p);
  }

  // ----- Deliveries in a row -----

  function EventsOf(negotiated: bool, fs: seq<Fate>): Log {
    if fs == [] then []
    else EventsOf(negotiated, fs[..|fs| - 1]) + Told(negotiated, fs[|fs| - 1])
  }

  function FramesOf(fs: seq<Fate>): (ps: seq<Pending>)
    ensures |ps| == |fs| && forall i :: 0 <= i < |fs| ==> ps[i] == fs[i].p
  {
    seq(|fs|, i requires 0 <= i < |fs| => fs[i].p)
  }

  /** A frame is known only if its id was remembered before, or an earlier frame with
      that id was handed over cleanly. */
  ghost predicate KnownRightly(c: Core, fs: seq<Fate>) {
    forall k :: 0 <= k < |fs| && fs[k].known ==>
      fs[k].p.env.body.id.Some? && (fs[k].p.env.body.id.value in c.dedup || CleanBefore(fs, k))
  }

  ghost predicate CleanBefore(fs: seq<Fate>, k: nat)
    requires k < |fs|
  {
    exists j :: 0 <= j < k && !fs[j].known && fs[j].clean && fs[j].p.env.body.id == fs[k].p.env.body.id
  }

  /** The log without its gap notices. */
  function Plainly(log: Log): Log {
    if log == [] then []
    else Plainly(log[..|log| - 1]) + if log[|log| - 1].Gap? then [] else [log[|log| - 1]]
  }

  predicate NoGap(log: Log) {
    forall i :: 0 <= i < |log| ==> !log[i].Gap?
  }

  lemma {:induction false} PlainMore(log: Log, more: Log)
    requires NoGap(more)
    ensures Plainly(log + more) == Plainly(log) + more
  {
    if more == [] {
      assert log + more == log;
    } else {
      assert (log + more)[..|log + more| - 1] == log + more[..|more| - 1];
      PlainMore(log, more[..|more| - 1]);
    }
  }

  /** These frames met these fates, and but for gap notices their events are all that
      was logged. */
  ghost predicate Met(c: Core, c': Core, ps: seq<Pending>, fs: seq<Fate>) {
    && FramesOf(fs) == ps && KnownRightly(c, fs)
    && Plainly(c'.log) == Plainly(c.log) + EventsOf(c.ackNegotiated, fs)
    && c'.cfg == c.cfg && c'.ackNegotiated == c.ackNegotiated
    && forall x :: x in c'.dedup ==> x in c.dedup || CleanIn(fs, x)
  }

  ghost predicate CleanIn(fs: seq<Fate>, x: string) {
    exists j :: 0 <= j < |fs| && !fs[j].known && fs[j].clean && fs[j].p.env.body.id == Some(x)
  }

  lemma DedupFrom(c: Core, p: Pending)
    ensures forall x :: x in Deliver(c, p).dedup ==>
      x in c.dedup || (!Known(c, p.env.body.id) && c.cfg.settles(|c.log|) && p.env.body.id == Some(x))
  {
    var id := p.env.body.id;
    forall x | x in Deliver(c, p).dedup
      ensures x in c.dedup || (!Known(c, id) && c.cfg.settles(|c.log|) && id == Some(x))
    {
      if id.Some? {
        HitMember(c.dedup, id.value, x);
        if x in Remember(c, id).dedup { AddMember(c.cfg.dedupCapacity, c.dedup, id.value, x); }
      }
    }
  }

  lemma {:induction false} EventsSplit(negotiated: bool, a: seq<Fate>, b: seq<Fate>)
    ensures EventsOf(negotiated, a + b) == EventsOf(negotiated, a) + EventsOf(negotiated, b)
  {
    if b == [] {
      assert a + b == a;
    } else {
      assert (a + b)[..|a + b| - 1] == a + b[..|b| - 1];
      EventsSplit(negotiated, a, b[..|b| - 1]);
    }
  }

  lemma CleanLater(a: seq<Fate>, b: seq<Fate>, x: string)
    ensures CleanIn(a, x) || CleanIn(b, x) ==> CleanIn(a + b, x)
  {
    var ab := a + b;
    if CleanIn(a, x) {
      var j :| 0 <= j < |a| && !a[j].known && a[j].clean && a[j].p.env.body.id == Some(x);
      assert ab[j] == a[j];
    }
    if CleanIn(b, x) {
      var j :| 0 <= j < |b| && !b[j].known && b[j].clean && b[j].p.env.body.id == Some(x);
      assert ab[|a| + j] == b[j];
    }
  }

  lemma KnownLater(c: Core, c1: Core, a: seq<Fate>, b: seq<Fate>, k: nat)
    requires KnownRightly(c, a) && KnownRightly(c1, b)
    requires forall x :: x in c1.dedup ==> x in c.dedup || CleanIn(a, x)
    requires k < |a + b| && (a + b)[k].known
    ensures var ab := a + b;
      ab[k].p.env.body.id.Some? && (ab[k].p.env.body.id.value in c.dedup || CleanBefore(ab, k))
  {
    var ab := a + b;
    if k < |a| {
      assert a[k] == ab[k];
      if CleanBefore(a, k) {
        var j :| 0 <= j < k && !a[j].known && a[j].clean && a[j].p.env.body.id == a[k].p.env.body.id;
        assert ab[j] == a[j];
      }
    } else {
      var m := k - |a|;
      assert b[m] == ab[k];
      if CleanBefore(b, m) {
        var j :| 0 <= j < m && !b[j].known && b[j].clean && b[j].p.env.body.id == b[m].p.env.body.id;
        assert ab[|a| + j] == b[j];
      } else if b[m].p.env.body.id.value !in c.dedup {
        var j :| 0 <= j < |a| && !a[j].known && a[j].clean && a[j].p.env.body.id == b[m].p.env.body.id;
        assert ab[j] == a[j];
      }
    }
  }

  lemma MetThen(c: Core, c1: Core, c2: Core, ps: seq<Pending>, a: seq<Fate>, qs: seq<Pending>, b: seq<Fate>)
    requires Met(c, c1, ps, a) && Met(c1, c2, qs, b)
    ensures Met(c, c2, ps + qs, a + b)
  {
    EventsSplit(c.ackNegotiated, a, b);
    assert FramesOf(a + b) == ps + qs;
    forall k | 0 <= k < |a + b| && (a + b)[k].known
      ensures (a + b)[k].p.env.body.id.Some?
              && ((a + b)[k].p.env.body.id.value in c.dedup || CleanBefore(a + b, k))
    {
      KnownLater(c, c1, a, b, k);
    }
    forall x | x in c2.dedup ensures x in c.dedup || CleanIn(a + b, x) { CleanLater(a, b, x); }
  }

  lemma ReportMet(c: Core, c1: Core, ps: seq<Pending>, fs: seq<Fate>, conv: string, gap: Option<GapNotice>)
    requires Met(c, c1, ps, fs)
    ensures Met(c, Report(c1, conv, gap), ps, fs)
  {
    if gap.Some? && c1.cfg.reportGaps {
      assert (c1.log + [Gap(conv, gap.value)])[..|c1.log|] == c1.log;
    }
  }

  lemma NoneMet(c: Core, c': Core)
    requires c'.log == c.log && c'.cfg == c.cfg && c'.ackNegotiated == c.ackNegotiated
    requires forall x :: x in c'.dedup ==> x in c.dedup
    ensures Met(c, c', [], [])
  {
  }

  lemma OneMet(c: Core, p: Pending)
    ensures Met(c, Deliver(c, p), [p], [FateOf(c, p)])
  {
    var f := FateOf(c, p);
    DeliverTells(c, p);
    DedupFrom(c, p);
    PlainMore(c.log, Told(c.ackNegotiated, f));
    assert [f][..0] == [] && FramesOf([f]) == [p];
    forall x | x in Deliver(c, p).dedup ensures x in c.dedup || CleanIn([f], x) {
      assert [f][0] == f;
    }
  }

  lemma {:induction false} DeliveriesMet(c: Core, ps: seq<Pending>) returns (fs: seq<Fate>)
    ensures Met(c, DeliverAll(c, ps), ps, fs)
  {
    if ps == [] {
      fs := [];
      NoneMet(c, c);
    } else {
      var init, p := ps[..|ps| - 1], ps[|ps| - 1];
      var before := DeliveriesMet(c, init);
      fs := before + [FateOf(DeliverAll(c, init), p)];
      assert init + [p] == ps;
      OneMore(c, DeliverAll(c, init), init, before, p);
    }
  }

  lemma OneMore(c: Core, c1: Core, ps: seq<Pending>, fs: seq<Fate>, p: Pending)
    requires Met(c, c1, ps, fs)
    ensures Met(c, Deliver(c1, p), ps + [p], fs + [FateOf(c1, p)])
  {
    OneMet(c1, p);
    MetThen(c, c1, Deliver(c1, p), ps, fs, [p], [FateOf(c1, p)]);
  }

  // ----- One step of the engine -----

  /** The frames a routed frame brings to the choke point. */
  function BroughtBy(e: Engine, env: Envelope, wsAck: bool, ackSpent: bool): seq<Pending> {
    var p, body := Pending(env, wsAck), env.body;
    if body.conv.None? || body.number.None? || body.conv.value !in e.orders then [p]
    else
      var o, s := e.orders[body.conv.value], body.number.value;
      if s >= o.next then Receive(o, s, p).out
      else if ackSpent && !Known(e.core, body.id) then [Pending(env, false)]
      else []
  }

  function Flushed(orders: map<string, OrderState>, order: seq<string>): seq<Pending> {
    if order == [] then []
    else
      var conv := order[|order| - 1];
      Flushed(orders, order[..|order| - 1])
      + if conv in orders then Values(orders[conv].buffer, Ordering.Sorted(orders[conv].buffer.Keys)) else []
  }

  /** All frames that a step brings to the choke point, in that order. A live frame
      and a fetched row are eligible for an ack then only if none was sent before. */
  ghost function Brought(e: Engine, i: Input): seq<Pending>
    requires Enabled(e, i)
  {
    var receipt := e.core.cfg.ackOnReceipt;
    match i
    case FrameIn(body) => BroughtBy(e, Envelope(body, None), !receipt, receipt)
    case DrainRow(env) => BroughtBy(e, env, false, false)
    case GapTimer(c) => TimerFired(e.orders[c], e.core.cfg.hasClient).out
    case FillBack(c, _, result) => FillReturned(e.orders[c], result, !receipt).out
    case SocketClosed(order) => if receipt then Flushed(e.orders, order) else []
    case Stopped(order) => Flushed(e.orders, order)
    case _ => []
  }

  /** The acks of these messages, in order. */
  function AcksOf(bodies: seq<Body>): Log {
    if bodies == [] then []
    else
      var id := bodies[|bodies| - 1].id;
      AcksOf(bodies[..|bodies| - 1]) + if id.Some? then [Acked(id.value)] else []
  }

  /** The messages acked as they are received: a live frame, and each fetched row
      that enters the buffer. */
  ghost function ReceivedNow(e: Engine, i: Input): seq<Body>
    requires Enabled(e, i)
  {
    if !e.core.cfg.ackOnReceipt then []
    else
      match i
      case FrameIn(body) => [body]
      case FillBack(c, _, Fetched(rows)) => Merged(e.orders[c].buffer, e.orders[c].fillFrom.value, rows, false)
      case _ => []
  }

  /** A socket that closed takes no acks. */
  predicate Acking(e: Engine, i: Input) {
    e.core.ackNegotiated && !i.SocketClosed?
  }

  /** The step logs the acks of what was received now and then, frame by frame, what
      became of those brought to the choke point, and no more than gap notices beside. */
  ghost predicate LogsJust(e: Engine, i: Input, fs: seq<Fate>)
    requires Enabled(e, i)
  {
    && FramesOf(fs) == Brought(e, i) && KnownRightly(e.core, fs)
    && Plainly(Next(e, i).core.log) ==
       Plainly(e.core.log) + (if Acking(e, i) then AcksOf(ReceivedNow(e, i)) else []) + EventsOf(Acking(e, i), fs)
  }

  lemma CommitMet(e: Engine, conv: string, oc: Outcome) returns (fs: seq<Fate>)
    ensures Met(e.core, Commit(e, conv, oc).core, oc.out, fs)
  {
    fs := DeliveriesMet(e.core, oc.out);
    ReportMet(e.core, DeliverAll(e.core, oc.out), oc.out, fs, conv, oc.gap);
  }

  lemma RouteMet(e: Engine, env: Envelope, wsAck: bool, ackSpent: bool) returns (fs: seq<Fate>)
    ensures Met(e.core, Route(e, env, wsAck, ackSpent).0.core, BroughtBy(e, env, wsAck, ackSpent), fs)
  {
    var p, body := Pending(env, wsAck), env.body;
    if body.conv.None? || body.number.None? || body.conv.value !in e.orders {
      OneMet(e.core, p);
      fs := [FateOf(e.core, p)];
    } else if body.number.value >= e.orders[body.conv.value].next {
      RouteReceives(e, env, wsAck, ackSpent);
      fs := CommitMet(e, body.conv.value, Receive(e.orders[body.conv.value], body.number.value, p));
    } else if ackSpent && !Known(e.core, body.id) {
      OneMet(e.core, Pending(env, false));
      fs := [FateOf(e.core, Pending(env, false))];
    } else {
      fs := [];
      if ackSpent {
        forall x ensures x in Refresh(e.core, body.id.value).dedup <==> x in e.core.dedup {
          HitMember(e.core.dedup, body.id.value, x);
        }
      }
      NoneMet(e.core, Route(e, env, wsAck, ackSpent).0.core);
    }
  }

  lemma {:induction false} FlushMet(e: Engine, order: seq<string>, reason: GapReason) returns (fs: seq<Fate>)
    ensures Met(e.core, FlushAll(e, order, reason).core, Flushed(e.orders, order), fs)
  {
    if order == [] {
      fs := [];
      NoneMet(e.core, e.core);
    } else {
      var init, conv := order[..|order| - 1], order[|order| - 1];
      var e1 := FlushAll(e, init, reason);
      fs := FlushMet(e, init, reason);
      FlushKeepsOrders(e, init, reason);
      if conv in e.orders {
        var oc := Flush(e.orders[conv], reason);
        var more := DeliveriesMet(e1.core, oc.out);
        ReportMet(e1.core, DeliverAll(e1.core, oc.out), oc.out, more, conv, oc.gap);
        MetThen(e.core, e1.core, FlushAll(e, order, reason).core, Flushed(e.orders, init), fs, oc.out, more);
        fs := fs + more;
      } else {
        assert Flushed(e.orders, init) + [] == Flushed(e.orders, init);
      }
    }
  }

  /** Acked before anything is delivered: these messages, where acks are taken. */
  ghost predicate AckedFirst(c: Core, c1: Core, acking: bool, bodies: seq<Body>) {
    && c1.dedup == c.dedup && c1.ackNegotiated == acking
    && Plainly(c1.log) == Plainly(c.log) + if acking then AcksOf(bodies) else []
  }

  lemma ReceiptAcks(c: Core, body: Body)
    ensures AckedFirst(c, SendAckIf(c, body.id, true), c.ackNegotiated, [body])
  {
    assert [body][..0] == [];
    if c.ackNegotiated && body.id.Some? { PlainMore(c.log, [Acked(body.id.value)]); }
  }

  lemma {:induction false} RowsAckedFirst(c: Core, rows: seq<Body>)
    ensures AckedFirst(c, AckRows(c, rows), c.ackNegotiated, rows)
  {
    if rows != [] {
      var init, id := AckRows(c, rows[..|rows| - 1]), rows[|rows| - 1].id;
      RowsAckedFirst(c, rows[..|rows| - 1]);
      if c.ackNegotiated && id.Some? { PlainMore(init.log, [Acked(id.value)]); }
    }
  }

  lemma NothingFirst(c: Core, c1: Core)
    requires c1.dedup == c.dedup && c1.log == c.log
    ensures AckedFirst(c, c1, c1.ackNegotiated, [])
  {
  }

  lemma LogsBoth(c: Core, c1: Core, c2: Core, acking: bool, bodies: seq<Body>, ps: seq<Pending>, fs: seq<Fate>)
    requires AckedFirst(c, c1, acking, bodies) && Met(c1, c2, ps, fs)
    ensures FramesOf(fs) == ps && KnownRightly(c, fs)
    ensures Plainly(c2.log) ==
            Plainly(c.log) + (if acking then AcksOf(bodies) else []) + EventsOf(acking, fs)
  {
  }

  lemma ReceiptLogs(e: Engine, body: Body) returns (fs: seq<Fate>)
    requires Enabled(e, FrameIn(body))
    ensures LogsJust(e, FrameIn(body), fs)
  {
    var env, receipt := Envelope(body, None), e.core.cfg.ackOnReceipt;
    var e1 := if receipt then e.(core := SendAckIf(e.core, body.id, true)) else e;
    if receipt { ReceiptAcks(e.core, body); } else { NothingFirst(e.core, e.core); }
    fs := RouteMet(e1, env, !receipt, receipt);
    assert BroughtBy(e1, env, !receipt, receipt) == BroughtBy(e, env, !receipt, receipt);
    assert Next(e, FrameIn(body)) == Route(e1, env, !receipt, receipt).0;
    LogsBoth(e.core, e1.core, Next(e, FrameIn(body)).core, e.core.ackNegotiated,
             ReceivedNow(e, FrameIn(body)), Brought(e, FrameIn(body)), fs);
  }

  lemma FillFirst(e: Engine, c: string, life: nat, result: FillResult)
    requires Enabled(e, FillBack(c, life, result))
    ensures AckedFirst(e.core, FillCore(e, c, result), e.core.ackNegotiated, ReceivedNow(e, FillBack(c, life, result)))
  {
    if e.core.cfg.ackOnReceipt && result.Fetched? {
      RowsAckedFirst(e.core, Merged(e.orders[c].buffer, e.orders[c].fillFrom.value, result.rows, false));
    } else {
      NothingFirst(e.core, e.core);
    }
  }

  lemma FillLogs(e: Engine, c: string, life: nat, result: FillResult) returns (fs: seq<Fate>)
    requires Enabled(e, FillBack(c, life, result))
    ensures LogsJust(e, FillBack(c, life, result), fs)
  {
    var i, core, oc :=
      FillBack(c, life, result), FillCore(e, c, result), FillReturned(e.orders[c], result, !e.core.cfg.ackOnReceipt);
    FillFirst(e, c, life, result);
    fs := CommitMet(e.(core := core), c, oc);
    assert Next(e, i) == Commit(e.(core := core), c, oc);
    LogsBoth(e.core, core, Next(e, i).core, e.core.ackNegotiated, ReceivedNow(e, i), oc.out, fs);
  }

  /** Steps that ack nothing on receipt. */
  lemma LaterLogs(e: Engine, i: Input) returns (fs: seq<Fate>)
    requires Enabled(e, i) && (i.DrainRow? || i.GapTimer?)
    ensures LogsJust(e, i, fs)
  {
    if i.DrainRow? {
      fs := RouteMet(e, i.env, false, false);
    } else {
      fs := CommitMet(e, i.conv, TimerFired(e.orders[i.conv], e.core.cfg.hasClient));
    }
    NothingFirst(e.core, e.core);
    LogsBoth(e.core, e.core, Next(e, i).core, e.core.ackNegotiated, [], Brought(e, i), fs);
  }

  lemma StopLogs(e: Engine, order: seq<string>) returns (fs: seq<Fate>)
    requires Enabled(e, Stopped(order))
    ensures LogsJust(e, Stopped(order), fs)
  {
    var e1 := e.(core := e.core.(disposed := true));
    fs := FlushMet(e1, order, GapFillUnavailable);
    NothingFirst(e.core, e1.core);
    LogsBoth(e.core, e1.core, FlushAll(e1, order, GapFillUnavailable).core, e.core.ackNegotiated, [],
             Flushed(e.orders, order), fs);
    assert Next(e, Stopped(order)).core.log == FlushAll(e1, order, GapFillUnavailable).core.log;
  }

  lemma CloseLogs(e: Engine, order: seq<string>) returns (fs: seq<Fate>)
    requires Enabled(e, SocketClosed(order))
    ensures LogsJust(e, SocketClosed(order), fs)
  {
    var e1 := e.(core := e.core.(connected := false, ackNegotiated := false));
    fs := [];
    NothingFirst(e.core, e1.core);
    if e.core.cfg.ackOnReceipt {
      fs := FlushMet(e1, order, ConnectionClosed);
      LogsBoth(e.core, e1.core, FlushAll(e1, order, ConnectionClosed).core, false, [], Flushed(e.orders, order), fs);
      assert Next(e, SocketClosed(order)).core == FlushAll(e1, order, ConnectionClosed).core;
    } else {
      assert Next(e, SocketClosed(order)).core == e1.core;
    }
  }

  /** Every step of the engine, in either mode: its acks are those of what was received
      now, where acks go out on receipt, and those of the eligible frames it handed
      over cleanly or knew already. */
  lemma {:induction false} StepLogs(e: Engine, i: Input)
    requires Enabled(e, i)
    ensures exists fs :: LogsJust(e, i, fs)
  {
    var fs: seq<Fate> := [];
    match i
    case FrameIn(body) => fs := ReceiptLogs(e, body);
    case DrainRow(_) => fs := LaterLogs(e, i);
    case GapTimer(_) => fs := LaterLogs(e, i);
    case FillBack(c, life, result) => fs := FillLogs(e, c, life, result);
    case SocketClosed(order) => fs := CloseLogs(e, order);
    case Stopped(order) => fs := StopLogs(e, order);
    case _ => assert LogsJust(e, i, fs);
  }

  // ----- Over runs -----

  /** Every parked frame is eligible, or none is. */
  ghost predicate Flagged(orders: map<string, OrderState>, eligible: bool) {
    forall c :: c in orders ==> BufferFlagged(orders[c].buffer, eligible)
  }

  ghost predicate BufferFlagged(buffer: map<nat, Pending>, eligible: bool) {
    forall k :: k in buffer ==> buffer[k].wsAck == eligible
  }

  ghost predicate AllFlagged(ps: seq<Pending>, eligible: bool) {
    forall p :: p in ps ==> p.wsAck == eligible
  }

  ghost predicate OutcomeFlagged(oc: Outcome, eligible: bool) {
    AllFlagged(oc.out, eligible) && BufferFlagged(oc.state.buffer, eligible)
  }

  lemma RunFlagged(o: OrderState, eligible: bool)
    requires BufferFlagged(o.buffer, eligible)
    ensures AllFlagged(DrainRun(o).1, eligible) && BufferFlagged(DrainRun(o).0.buffer, eligible)
  {
    var run := DrainRun(o).1;
    forall i | 0 <= i < |run| ensures run[i].wsAck == eligible { assert o.next + i in o.buffer.Keys; }
  }

  lemma ValuesFlagged(buffer: map<nat, Pending>, eligible: bool)
    requires BufferFlagged(buffer, eligible)
    ensures AllFlagged(Values(buffer, Ordering.Sorted(buffer.Keys)), eligible)
  {
    var keys := Ordering.Sorted(buffer.Keys);
    forall i | 0 <= i < |keys| ensures Values(buffer, keys)[i].wsAck == eligible { assert keys[i] in keys; }
  }

  lemma ReceiveFlagged(o: OrderState, s: nat, p: Pending)
    requires BufferFlagged(o.buffer, p.wsAck)
    ensures OutcomeFlagged(Receive(o, s, p), p.wsAck)
  {
    if s == o.next { RunFlagged(o.(next := o.next + 1), p.wsAck); }
    if s > o.next { ValuesFlagged(o.buffer[s := p], p.wsAck); }
  }

  lemma FillFlagged(o: OrderState, result: FillResult, eligible: bool)
    requires o.fillFrom.Some? && BufferFlagged(o.buffer, eligible)
    ensures OutcomeFlagged(FillReturned(o, result, eligible), eligible)
  {
    match result
    case FillError => ValuesFlagged(o.buffer, eligible);
    case Fetched(rows) =>
      MergeFacts(o.buffer, o.fillFrom.value, rows, eligible);
      var o2 := o.(fillFrom := None, buffer := Merge(o.buffer, o.fillFrom.value, rows, eligible));
      RunFlagged(o2, eligible);
      ValuesFlagged(DrainRun(o2).0.buffer, eligible);
  }

  lemma {:induction false} FlushedFlagged(orders: map<string, OrderState>, order: seq<string>, eligible: bool)
    requires Flagged(orders, eligible)
    ensures AllFlagged(Flushed(orders, order), eligible)
  {
    if order != [] {
      FlushedFlagged(orders, order[..|order| - 1], eligible);
      if order[|order| - 1] in orders { ValuesFlagged(orders[order[|order| - 1]].buffer, eligible); }
    }
  }

  lemma CommitFlagged(e: Engine, conv: string, oc: Outcome, eligible: bool)
    requires Flagged(e.orders, eligible) && BufferFlagged(oc.state.buffer, eligible)
    ensures Flagged(Commit(e, conv, oc).orders, eligible)
  {
  }

  lemma RouteFlagged(e: Engine, env: Envelope, wsAck: bool, ackSpent: bool)
    requires Flagged(e.orders, wsAck) && (ackSpent ==> !wsAck)
    ensures Flagged(Route(e, env, wsAck, ackSpent).0.orders, wsAck)
    ensures AllFlagged(BroughtBy(e, env, wsAck, ackSpent), wsAck)
  {
    var p, body := Pending(env, wsAck), env.body;
    if body.conv.Some? && body.number.Some? && body.conv.value in e.orders
       && body.number.value >= e.orders[body.conv.value].next {
      var oc := Receive(e.orders[body.conv.value], body.number.value, p);
      ReceiveFlagged(e.orders[body.conv.value], body.number.value, p);
      RouteReceives(e, env, wsAck, ackSpent);
      CommitFlagged(e, body.conv.value, oc, wsAck);
    }
  }

  /** A drain row is never eligible; in the default mode all else is. */
  lemma StepFlagged(e: Engine, i: Input)
    requires Enabled(e, i) && Flagged(e.orders, !e.core.cfg.ackOnReceipt)
    requires i.DrainRow? ==> e.core.cfg.ackOnReceipt
    ensures Flagged(Next(e, i).orders, !e.core.cfg.ackOnReceipt)
    ensures AllFlagged(Brought(e, i), !e.core.cfg.ackOnReceipt)
  {
    var receipt := e.core.cfg.ackOnReceipt;
    match i
    case FrameIn(body) =>
      var e1 := if receipt then e.(core := SendAckIf(e.core, body.id, true)) else e;
      RouteFlagged(e1, Envelope(body, None), !receipt, receipt);
      assert BroughtBy(e1, Envelope(body, None), !receipt, receipt) == Brought(e, i);
    case DrainRow(env) => RouteFlagged(e, env, false, false);
    case GapTimer(c) =>
      ValuesFlagged(e.orders[c].buffer, !receipt);
      CommitFlagged(e, c, TimerFired(e.orders[c], e.core.cfg.hasClient), !receipt);
    case FillBack(c, _, result) =>
      FillFlagged(e.orders[c], result, !receipt);
      CommitFlagged(e.(core := FillCore(e, c, result)), c, FillReturned(e.orders[c], result, !receipt), !receipt);
    case SocketClosed(order) => FlushedFlagged(e.orders, order, !receipt);
    case Stopped(order) => FlushedFlagged(e.orders, order, !receipt);
    case _ =>
  }
}
