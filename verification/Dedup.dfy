/** When the choke point hands a message to the handlers again, in terms of
    everything it delivered before. */
module Dedup {
  import opened Wrappers
  import opened Envelopes
  import opened Ordering
  import opened Delivery
  import DeliveryLaws
  import Lru

  /** What a delivery does to the recency set. */
  function Touch(c: Core, p: Pending): seq<Lru.Op> {
    var id := p.env.body.id;
    if id.None? then []
    else if Known(c, id) then [Lru.Lookup(id.value)]
    else if c.cfg.settles(|c.log|) then [Lru.Insertion(id.value)]
    else []
  }

  function History(c: Core, ps: seq<Pending>): seq<Lru.Op> {
    if ps == [] then []
    else History(c, ps[..|ps| - 1]) + Touch(DeliverAll(c, ps[..|ps| - 1]), ps[|ps| - 1])
  }

  function Touched(c: Core, p: Pending): seq<string> {
    var t := Touch(c, p);
    if t == [] then c.dedup else Lru.Apply(c.cfg.dedupCapacity, c.dedup, t[0])
  }

  lemma AckKeepsDedup(c: Core, id: Option<string>, wanted: bool, env: Envelope, ok: bool)
    ensures var r := Settle(SendAckIf(c, id, wanted), env, ok); r.dedup == c.dedup && r.cfg == c.cfg
  {}

  lemma TouchIsDelivery(c: Core, p: Pending)
    ensures Deliver(c, p).cfg == c.cfg && Deliver(c, p).dedup == Touched(c, p)
  {
    var id := p.env.body.id;
    if Known(c, id) {
      AckKeepsDedup(Refresh(c, id.value), id, p.wsAck, p.env, true);
    } else {
      AckKeepsDedup(Remember(Dispatch(c, p.env.body), id), id, p.wsAck, p.env, true);
    }
  }

  // ----- What every step does to it -----

  predicate IsHistory(c: Core, ops: seq<Lru.Op>) {
    c.dedup == Lru.Run(c.cfg.dedupCapacity, ops)
  }

  lemma OneTouch(c: Core, ops: seq<Lru.Op>, p: Pending)
    requires IsHistory(c, ops)
    ensures IsHistory(Deliver(c, p), ops + Touch(c, p))
  {
    TouchIsDelivery(c, p);
    var t := Touch(c, p);
    if t == [] { assert ops + t == ops; }
  }

  lemma {:induction false} DeliveriesAreHistory(c: Core, ops: seq<Lru.Op>, ps: seq<Pending>)
    requires IsHistory(c, ops)
    ensures IsHistory(DeliverAll(c, ps), ops + History(c, ps)) && DeliverAll(c, ps).cfg == c.cfg
  {
    if ps == [] {
      assert ops + [] == ops;
    } else {
      var init, p := ps[..|ps| - 1], ps[|ps| - 1];
      DeliveriesAreHistory(c, ops, init);
      OneTouch(DeliverAll(c, init), ops + History(c, init), p);
      TouchIsDelivery(DeliverAll(c, init), p);
      assert ops + History(c, ps) == ops + History(c, init) + Touch(DeliverAll(c, init), p);
    }
  }

  /** A frame below the anchor, acked already, looks its id up. */
  function RouteOps(e: Engine, env: Envelope, wsAck: bool, ackSpent: bool): seq<Lru.Op> {
    var p, body := Pending(env, wsAck), env.body;
    if body.conv.None? || body.number.None? || body.conv.value !in e.orders then Touch(e.core, p)
    else
      var o, s := e.orders[body.conv.value], body.number.value;
      if s < o.next then
        if !ackSpent then []
        else if Known(e.core, body.id) then [Lru.Lookup(body.id.value)]
        else Touch(e.core, Pending(env, false))
      else if s == o.next then History(e.core, InOrder(o, p).out)
      else History(e.core, Park(o, s, p).out)
  }

  function FlushOps(e: Engine, order: seq<string>, reason: GapReason): seq<Lru.Op> {
    if order == [] then []
    else
      var init := order[..|order| - 1];
      FlushOps(e, init, reason) + FlushOneOps(FlushAll(e, init, reason), order[|order| - 1], reason)
  }

  function FlushOneOps(e: Engine, conv: string, reason: GapReason): seq<Lru.Op> {
    if conv in e.orders then History(e.core, Flush(e.orders[conv], reason).out) else []
  }

  ghost function OpsOf(e: Engine, i: Input): seq<Lru.Op> {
    if !Enabled(e, i) then []
    else
      match i
      case FrameIn(body) =>
        if e.core.cfg.ackOnReceipt
        then RouteOps(e.(core := SendAckIf(e.core, body.id, true)), Envelope(body, None), false, true)
        else RouteOps(e, Envelope(body, None), true, false)
      case DrainRow(env) => RouteOps(e, env, false, false)
      case GapTimer(c) => History(e.core, TimerFired(e.orders[c], e.core.cfg.hasClient).out)
      case FillBack(c, _, result) =>
        History(FillCore(e, c, result), FillReturned(e.orders[c], result, !e.core.cfg.ackOnReceipt).out)
      case SocketClosed(order) =>
        if e.core.cfg.ackOnReceipt
        then FlushOps(e.(core := e.core.(connected := false, ackNegotiated := false)), order, ConnectionClosed)
        else []
      case Stopped(order) => FlushOps(e.(core := e.core.(disposed := true)), order, GapFillUnavailable)
      case DedupLookup(id) => [Lru.Lookup(id)]
      case _ => []
  }

  /** The lookups and insertions of a whole run. */
  ghost function RunOps(e: Engine, inputs: seq<Input>): seq<Lru.Op> {
    if inputs == [] then []
    else
      var init := inputs[..|inputs| - 1];
      RunOps(e, init) + OpsOf(DeliveryLaws.Run(e, init), inputs[|inputs| - 1])
  }

  lemma {:induction false} AckRowsKeepDedup(c: Core, rows: seq<Body>)
    ensures AckRows(c, rows).dedup == c.dedup && AckRows(c, rows).cfg == c.cfg
  {
    if rows != [] { AckRowsKeepDedup(c, rows[..|rows| - 1]); }
  }

  lemma CommitOps(e: Engine, ops: seq<Lru.Op>, conv: string, oc: Outcome)
    requires IsHistory(e.core, ops)
    ensures IsHistory(Commit(e, conv, oc).core, ops + History(e.core, oc.out))
  {
    DeliveriesAreHistory(e.core, ops, oc.out);
  }

  lemma RouteIsHistory(e: Engine, ops: seq<Lru.Op>, env: Envelope, wsAck: bool, ackSpent: bool)
    requires IsHistory(e.core, ops)
    ensures IsHistory(Route(e, env, wsAck, ackSpent).0.core, ops + RouteOps(e, env, wsAck, ackSpent))
  {
    var p, body := Pending(env, wsAck), env.body;
    OneTouch(e.core, ops, p);
    if body.conv.Some? && body.number.Some? && body.conv.value in e.orders {
      var o, s := e.orders[body.conv.value], body.number.value;
      if s < o.next {
        BelowIsHistory(e.core, ops, env, ackSpent);
      } else if s == o.next {
        CommitOps(e, ops, body.conv.value, InOrder(o, p));
      } else {
        CommitOps(e, ops, body.conv.value, Park(o, s, p));
      }
    }
  }

  lemma BelowIsHistory(c: Core, ops: seq<Lru.Op>, env: Envelope, ackSpent: bool)
    requires IsHistory(c, ops)
    ensures ops + [] == ops
    ensures Known(c, env.body.id) ==> IsHistory(Refresh(c, env.body.id.value), ops + [Lru.Lookup(env.body.id.value)])
    ensures IsHistory(Deliver(c, Pending(env, false)), ops + Touch(c, Pending(env, false)))
  {
    OneTouch(c, ops, Pending(env, false));
  }

  lemma {:induction false} FlushIsHistory(e: Engine, ops: seq<Lru.Op>, order: seq<string>, reason: GapReason)
    requires IsHistory(e.core, ops)
    ensures IsHistory(FlushAll(e, order, reason).core, ops + FlushOps(e, order, reason))
  {
    if order == [] {
      assert ops + [] == ops;
    } else {
      var init, conv := order[..|order| - 1], order[|order| - 1];
      var e1, sofar := FlushAll(e, init, reason), ops + FlushOps(e, init, reason);
      FlushIsHistory(e, ops, init, reason);
      OneFlush(e1, sofar, conv, reason);
      Assoc(ops, FlushOps(e, init, reason), FlushOneOps(e1, conv, reason));
    }
  }

  lemma Assoc(a: seq<Lru.Op>, b: seq<Lru.Op>, c: seq<Lru.Op>)
    ensures a + (b + c) == a + b + c
  {
  }

  lemma OneFlush(e: Engine, ops: seq<Lru.Op>, conv: string, reason: GapReason)
    requires IsHistory(e.core, ops)
    ensures IsHistory(FlushOne(e, conv, reason).core, ops + FlushOneOps(e, conv, reason))
  {
    if conv in e.orders {
      DeliveriesAreHistory(e.core, ops, Flush(e.orders[conv], reason).out);
    } else {
      assert ops + [] == ops;
    }
  }

  lemma FillIsHistory(e: Engine, ops: seq<Lru.Op>, conv: string, result: FillResult)
    requires IsHistory(e.core, ops) && conv in e.orders && e.orders[conv].fillFrom.Some?
    ensures var oc := FillReturned(e.orders[conv], result, !e.core.cfg.ackOnReceipt);
      IsHistory(FillStep(e, conv, result).core, ops + History(FillCore(e, conv, result), oc.out))
  {
    var o := e.orders[conv];
    if e.core.cfg.ackOnReceipt && result.Fetched? {
      AckRowsKeepDedup(e.core, Merged(o.buffer, o.fillFrom.value, result.rows, false));
    }
    CommitOps(e.(core := FillCore(e, conv, result)), ops, conv, FillReturned(o, result, !e.core.cfg.ackOnReceipt));
  }

  lemma NextIsHistory(e: Engine, ops: seq<Lru.Op>, i: Input)
    requires IsHistory(e.core, ops)
    ensures IsHistory(Next(e, i).core, ops + OpsOf(e, i))
  {
    assert ops + [] == ops;
    if Enabled(e, i) {
      match i
      case FrameIn(body) =>
        if e.core.cfg.ackOnReceipt {
          RouteIsHistory(e.(core := SendAckIf(e.core, body.id, true)), ops, Envelope(body, None), false, true);
        } else {
          RouteIsHistory(e, ops, Envelope(body, None), true, false);
        }
      case DrainRow(env) => RouteIsHistory(e, ops, env, false, false);
      case GapTimer(c) => CommitOps(e, ops, c, TimerFired(e.orders[c], e.core.cfg.hasClient));
      case FillBack(c, _, result) => FillIsHistory(e, ops, c, result);
      case SocketClosed(order) =>
        FlushIsHistory(e.(core := e.core.(connected := false, ackNegotiated := false)), ops, order, ConnectionClosed);
      case Stopped(order) => FlushIsHistory(e.(core := e.core.(disposed := true)), ops, order, GapFillUnavailable);
      case DedupLookup(id) =>
      case _ =>
    }
  }

  /** The dedup set after any run of the engine is the recency set of the run's
      lookups and insertions, those of below-anchor frames and drain rows included. */
  lemma {:induction false} DedupIsHistory(cfg: Config, inputs: seq<Input>)
    ensures IsHistory(DeliveryLaws.Run(Start(cfg), inputs).core, RunOps(Start(cfg), inputs))
    ensures DeliveryLaws.Run(Start(cfg), inputs).core.cfg == cfg
  {
    if inputs != [] {
      var init := inputs[..|inputs| - 1];
      DedupIsHistory(cfg, init);
      NextIsHistory(DeliveryLaws.Run(Start(cfg), init), RunOps(Start(cfg), init), inputs[|inputs| - 1]);
    }
    DeliveryLaws.RunSafe(Start(cfg), inputs);
  }

  /** Did the last delivery call the handlers? */
  ghost predicate HandedNow(c: Core, p: Pending) {
    |Deliver(c, p).log| > |c.log| && Deliver(c, p).log[|c.log|].Handed?
  }

  lemma HandedUnlessKnown(c: Core, p: Pending)
    ensures HandedNow(c, p) <==> !Known(c, p.env.body.id)
  {}

  /** After any run of the engine, the next delivery calls the handlers exactly
      unless its id was settled before and fewer than `capacity` distinct ids have
      been settled, or met again, since that id last was. */
  lemma {:induction false} HandedIffForgotten(cfg: Config, inputs: seq<Input>, p: Pending)
    requires cfg.dedupCapacity > 0
    ensures var touches := Lru.Touches(cfg.dedupCapacity, RunOps(Start(cfg), inputs));
      HandedNow(DeliveryLaws.Run(Start(cfg), inputs).core, p) <==>
      !(p.env.body.id.Some? && p.env.body.id.value in touches
        && |Elements(Lru.Since(touches, p.env.body.id.value))| < cfg.dedupCapacity)
  {
    HandedUnlessKnown(DeliveryLaws.Run(Start(cfg), inputs).core, p);
    DedupIsHistory(cfg, inputs);
    if p.env.body.id.Some? {
      Lru.MemberIffRecent(cfg.dedupCapacity, RunOps(Start(cfg), inputs), p.env.body.id.value);
    }
  }
}
