/** What the acks of a whole run are (src/agentchatme/_realtime.py:980-997, 1589-1624):
    acking after dispatch, every clean hand-over is acked at once; acking on receipt,
    every message is acked in the step that receives it, and only there. */
module AckLaws {
  import opened Wrappers
  import opened Envelopes
  import opened Ordering
  import opened OrderingLaws
  import opened Delivery
  import opened DeliveryLaws
  import opened Acks

  /** The ids acked, in order. */
  function AckIds(log: Log): seq<string> {
    if log == [] then []
    else AckIds(log[..|log| - 1]) + if log[|log| - 1].Acked? then [log[|log| - 1].id] else []
  }

  function IdsOf(bodies: seq<Body>): seq<string> {
    if bodies == [] then []
    else IdsOf(bodies[..|bodies| - 1]) + if bodies[|bodies| - 1].id.Some? then [bodies[|bodies| - 1].id.value] else []
  }

  lemma {:induction false} AckIdsSplit(a: Log, b: Log)
    ensures AckIds(a + b) == AckIds(a) + AckIds(b)
  {
    if b == [] {
      assert a + b == a;
    } else {
      assert (a + b)[..|a + b| - 1] == a + b[..|b| - 1];
      AckIdsSplit(a, b[..|b| - 1]);
    }
  }

  lemma {:induction false} PlainAckIds(log: Log)
    ensures AckIds(Plainly(log)) == AckIds(log)
  {
    if log != [] {
      var last := log[|log| - 1];
      PlainAckIds(log[..|log| - 1]);
      AckIdsSplit(Plainly(log[..|log| - 1]), if last.Gap? then [] else [last]);
      if !last.Gap? { assert [last][..0] == []; }
    }
  }

  lemma {:induction false} AcksAreIds(bodies: seq<Body>)
    ensures AckIds(AcksOf(bodies)) == IdsOf(bodies)
  {
    if bodies != [] {
      var init, id := bodies[..|bodies| - 1], bodies[|bodies| - 1].id;
      var last: Log := if id.Some? then [Acked(id.value)] else [];
      AcksAreIds(init);
      AckIdsSplit(AcksOf(init), last);
      if id.Some? { assert last[..0] == []; }
    }
  }

  // ----- Acking on receipt -----

  lemma ToldNoAck(negotiated: bool, f: Fate)
    requires !f.p.wsAck
    ensures AckIds(Told(negotiated, f)) == []
  {
    if !f.known { assert Told(negotiated, f)[..0] == []; }
  }

  lemma {:induction false} EventsNoAck(negotiated: bool, fs: seq<Fate>)
    requires AllFlagged(FramesOf(fs), false)
    ensures AckIds(EventsOf(negotiated, fs)) == []
  {
    if fs != [] {
      var n := |fs| - 1;
      forall i | 0 <= i < |fs| ensures !fs[i].p.wsAck { assert FramesOf(fs)[i] in FramesOf(fs); }
      EventsNoAck(negotiated, fs[..n]);
      ToldNoAck(negotiated, fs[n]);
      AckIdsSplit(EventsOf(negotiated, fs[..n]), Told(negotiated, fs[n]));
    }
  }

  lemma {:induction false} RunIsFlagged(cfg: Config, inputs: seq<Input>)
    requires forall i :: 0 <= i < |inputs| && inputs[i].DrainRow? ==> cfg.ackOnReceipt
    ensures Flagged(Run(Start(cfg), inputs).orders, !cfg.ackOnReceipt) && Run(Start(cfg), inputs).core.cfg == cfg
  {
    RunSafe(Start(cfg), inputs);
    if inputs != [] {
      var e, i := Run(Start(cfg), inputs[..|inputs| - 1]), inputs[|inputs| - 1];
      RunIsFlagged(cfg, inputs[..|inputs| - 1]);
      if Enabled(e, i) { StepFlagged(e, i); }
    }
  }

  /** Acking on receipt, after any run: the next step acks just what it receives, a
      live frame or the fetched rows that enter the buffer, each with an id once. */
  lemma {:induction false} AckedOnReceipt(cfg: Config, inputs: seq<Input>, i: Input)
    requires cfg.ackOnReceipt && Enabled(Run(Start(cfg), inputs), i)
    ensures var e := Run(Start(cfg), inputs);
      AckIds(Delivery.Next(e, i).core.log) ==
      AckIds(e.core.log) + if Acking(e, i) then IdsOf(ReceivedNow(e, i)) else []
  {
    var e := Run(Start(cfg), inputs);
    RunIsFlagged(cfg, inputs);
    StepLogs(e, i);
    var fs :| LogsJust(e, i, fs);
    StepFlagged(e, i);
    EventsNoAck(Acking(e, i), fs);
    LoggedIds(e.core.log, Delivery.Next(e, i).core.log,
              if Acking(e, i) then AcksOf(ReceivedNow(e, i)) else [], EventsOf(Acking(e, i), fs));
    AcksAreIds(ReceivedNow(e, i));
  }

  lemma LoggedIds(log: Log, log': Log, a: Log, b: Log)
    requires Plainly(log') == Plainly(log) + a + b
    ensures AckIds(log') == AckIds(log) + AckIds(a) + AckIds(b)
  {
    PlainAckIds(log);
    PlainAckIds(log');
    AckIdsSplit(Plainly(log), a);
    AckIdsSplit(Plainly(log) + a, b);
  }

  function Numbers(rows: seq<Body>): set<nat> {
    set row | row in rows && row.number.Some? :: row.number.value
  }

  /** No two of the fetched rows that enter the buffer have the same seq, and together
      they fill just the seqs that were free. */
  lemma {:induction false} MergedOnce(buffer: map<nat, Pending>, from: nat, rows: seq<Body>, wsAck: bool)
    ensures var taken := Merged(buffer, from, rows, wsAck);
      && (forall i :: 0 <= i < |taken| ==> taken[i].number.Some?)
      && (forall i, j :: 0 <= i < j < |taken| ==> taken[i].number != taken[j].number)
      && Numbers(taken) == Merge(buffer, from, rows, wsAck).Keys - buffer.Keys
  {
    MergeFacts(buffer, from, rows, wsAck);
    if rows != [] {
      var init, row := rows[..|rows| - 1], rows[|rows| - 1];
      var b, taken := Merge(buffer, from, init, wsAck), Merged(buffer, from, init, wsAck);
      MergedOnce(buffer, from, init, wsAck);
      MergeFacts(buffer, from, init, wsAck);
      forall i | 0 <= i < |taken| ensures taken[i].number.value in b.Keys { assert taken[i] in taken; }
      assert Numbers(taken + [row]) == Numbers(taken) + if row.number.Some? then {row.number.value} else {};
    }
  }

  // ----- Acking after dispatch -----

  /** Every clean hand-over of a message with an id is followed at once by its ack. */
  ghost predicate CleanAcked(log: Log) {
    forall k :: 0 <= k < |log| && CleanAt(log, k) ==> k + 1 < |log| && log[k + 1] == Acked(log[k].body.id.value)
  }

  predicate CleanAt(log: Log, k: nat)
    requires k < |log|
  {
    log[k].Handed? && log[k].clean && log[k].body.id.Some?
  }

  lemma CleanAckedSplit(a: Log, b: Log)
    requires CleanAcked(a) && CleanAcked(b)
    ensures CleanAcked(a + b)
  {
    var ab := a + b;
    forall k | 0 <= k < |ab| && CleanAt(ab, k) ensures k + 1 < |ab| && ab[k + 1] == Acked(ab[k].body.id.value) {
      if k < |a| { assert CleanAt(a, k) && ab[k + 1] == a[k + 1]; } else { assert CleanAt(b, k - |a|); }
    }
  }

  lemma {:induction false} EventsCleanAcked(fs: seq<Fate>)
    requires AllFlagged(FramesOf(fs), true)
    ensures CleanAcked(EventsOf(true, fs))
  {
    if fs != [] {
      var n := |fs| - 1;
      forall i | 0 <= i < |fs| ensures fs[i].p.wsAck { assert FramesOf(fs)[i] in FramesOf(fs); }
      EventsCleanAcked(fs[..n]);
      CleanAckedSplit(EventsOf(true, fs[..n]), Told(true, fs[n]));
    }
  }

  /** While there is anything to hand over, acks are negotiated. */
  predicate TakesAcks(e: Engine) {
    (e.core.connected || e.orders != map[] ==> e.core.ackNegotiated) && !e.core.cfg.ackOnReceipt
  }

  /** Nothing comes from a drain, and every server takes acks. */
  ghost predicate LiveOnly(inputs: seq<Input>) {
    forall i :: 0 <= i < |inputs| ==> !inputs[i].DrainRow? && (inputs[i].HelloOk? ==> inputs[i].ack)
  }

  lemma StepTakesAcks(e: Engine, i: Input)
    requires TakesAcks(e) && Enabled(e, i) && !i.DrainRow? && (i.HelloOk? ==> i.ack)
    ensures TakesAcks(Delivery.Next(e, i)) && (Acking(e, i) || Brought(e, i) == [])
  {
    match i
    case FrameIn(body) => RouteTakesAcks(e, Envelope(body, None), true, false);
    case GapTimer(c) => CommitTakesAcks(e, c, TimerFired(e.orders[c], e.core.cfg.hasClient));
    case FillBack(c, _, result) => CommitTakesAcks(e, c, FillReturned(e.orders[c], result, true));
    case Stopped(order) =>
      var fs := FlushMet(e.(core := e.core.(disposed := true)), order, GapFillUnavailable);
      if e.orders == map[] { NoneFlushed(e.orders, order); }
    case _ =>
  }

  lemma CommitTakesAcks(e: Engine, conv: string, oc: Outcome)
    ensures var c := Commit(e, conv, oc).core;
      c.ackNegotiated == e.core.ackNegotiated && c.cfg == e.core.cfg && c.connected == e.core.connected
  {
    var fs := CommitMet(e, conv, oc);
    DeliverAllConnected(e.core, oc.out);
  }

  lemma {:induction false} DeliverAllConnected(c: Core, ps: seq<Pending>)
    ensures DeliverAll(c, ps).connected == c.connected
  {
    if ps != [] {
      DeliverAllConnected(c, ps[..|ps| - 1]);
      DeliverTells(DeliverAll(c, ps[..|ps| - 1]), ps[|ps| - 1]);
    }
  }

  lemma RouteTakesAcks(e: Engine, env: Envelope, wsAck: bool, ackSpent: bool)
    ensures var c := Route(e, env, wsAck, ackSpent).0.core;
      c.ackNegotiated == e.core.ackNegotiated && c.cfg == e.core.cfg && c.connected == e.core.connected
  {
    var fs := RouteMet(e, env, wsAck, ackSpent);
    DeliverTells(e.core, Pending(env, wsAck));
    DeliverTells(e.core, Pending(env, false));
    if env.body.conv.Some? && env.body.number.Some? && env.body.conv.value in e.orders
       && env.body.number.value >= e.orders[env.body.conv.value].next {
      RouteReceives(e, env, wsAck, ackSpent);
      var oc := Receive(e.orders[env.body.conv.value], env.body.number.value, Pending(env, wsAck));
      CommitTakesAcks(e, env.body.conv.value, oc);
    }
  }

  lemma {:induction false} NoneFlushed(orders: map<string, OrderState>, order: seq<string>)
    requires orders == map[]
    ensures Flushed(orders, order) == []
  {
    if order != [] { NoneFlushed(orders, order[..|order| - 1]); }
  }

  lemma {:induction false} RunTakesAcks(cfg: Config, inputs: seq<Input>)
    requires !cfg.ackOnReceipt && LiveOnly(inputs)
    ensures TakesAcks(Run(Start(cfg), inputs))
  {
    if inputs != [] {
      var e, i := Run(Start(cfg), inputs[..|inputs| - 1]), inputs[|inputs| - 1];
      RunTakesAcks(cfg, inputs[..|inputs| - 1]);
      if Enabled(e, i) { StepTakesAcks(e, i); }
    }
  }

  /** Acking after dispatch: over any run of live frames, timers, fills, closes and the
      stop, each message with an id that every handler took is acked at once. */
  lemma {:induction false} CleanThenAcked(cfg: Config, inputs: seq<Input>)
    requires !cfg.ackOnReceipt && LiveOnly(inputs)
    ensures CleanAcked(Plainly(Run(Start(cfg), inputs).core.log))
  {
    if inputs != [] {
      var e, i := Run(Start(cfg), inputs[..|inputs| - 1]), inputs[|inputs| - 1];
      CleanThenAcked(cfg, inputs[..|inputs| - 1]);
      RunTakesAcks(cfg, inputs[..|inputs| - 1]);
      RunIsFlagged(cfg, inputs[..|inputs| - 1]);
      if Enabled(e, i) { StepCleanAcked(e, i); }
    }
  }

  lemma StepCleanAcked(e: Engine, i: Input)
    requires TakesAcks(e) && Enabled(e, i) && !i.DrainRow? && (i.HelloOk? ==> i.ack)
    requires CleanAcked(Plainly(e.core.log)) && Flagged(e.orders, true)
    ensures CleanAcked(Plainly(Delivery.Next(e, i).core.log))
  {
    StepLogs(e, i);
    var fs :| LogsJust(e, i, fs);
    StepFlagged(e, i);
    StepTakesAcks(e, i);
    LaterOnly(e, i, fs);
    if fs == [] { assert EventsOf(Acking(e, i), fs) == []; } else { EventsCleanAcked(fs); }
    CleanAckedSplit(Plainly(e.core.log), EventsOf(Acking(e, i), fs));
  }

  lemma LaterOnly(e: Engine, i: Input, fs: seq<Fate>)
    requires Enabled(e, i) && LogsJust(e, i, fs) && !e.core.cfg.ackOnReceipt
    ensures Plainly(Delivery.Next(e, i).core.log) == Plainly(e.core.log) + EventsOf(Acking(e, i), fs)
    ensures Brought(e, i) == [] ==> fs == []
  {
    assert ReceivedNow(e, i) == [] && AcksOf([]) == [];
    assert |FramesOf(fs)| == |fs|;
    assert Plainly(e.core.log) + [] == Plainly(e.core.log);
  }
}
