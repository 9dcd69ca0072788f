/** What every step of the delivery engine keeps, and what that means over
    whole runs. */
module DeliveryLaws {
  import opened Wrappers
  import opened Envelopes
  import opened Ordering
  import opened OrderingLaws
  import opened Delivery
  import Lru

  type Log = seq<Event>

  /** Some dispatch of a message with this id settled cleanly. */
  ghost predicate AcceptedId(log: Log, id: string) {
    exists b :: Handed(b, true) in log && b.id == Some(id)
  }

  /** This message was cleanly dispatched, by id where it has one. */
  ghost predicate Accepted(log: Log, body: Body) {
    Handed(body, true) in log || (body.id.Some? && AcceptedId(log, body.id.value))
  }

  /** A message with this id was handed to the handlers, cleanly or not. */
  ghost predicate HandedId(log: Log, id: string) {
    exists b, ok :: Handed(b, ok) in log && b.id == Some(id)
  }

  lemma AcceptedGrows(log: Log, more: Log)
    requires log <= more
    ensures forall id :: AcceptedId(log, id) ==> AcceptedId(more, id)
    ensures forall b :: Accepted(log, b) ==> Accepted(more, b)
    ensures forall id :: HandedId(log, id) ==> HandedId(more, id)
    ensures forall x :: x in log ==> x in more
  {
    assert forall x :: x in log ==> x in more;
  }

  // ----- Safety of the core -----

  /** Only cleanly dispatched ids are remembered, and, acking after dispatch,
      acked; only cleanly dispatched rows are settled. */
  ghost predicate CoreSafe(c: Core) {
    && (forall id :: id in c.dedup ==> AcceptedId(c.log, id))
    && (!c.cfg.ackOnReceipt ==> forall id :: Acked(id) in c.log ==> AcceptedId(c.log, id))
    && (forall env :: env in c.settlements && c.settlements[env] == Some(true) ==> Accepted(c.log, env.body))
  }

  /** c' follows c: a longer log, and nothing else but dedup and settlements changed. */
  ghost predicate Follows(c: Core, c': Core) {
    && c.log <= c'.log
    && c' == c.(dedup := c'.dedup, settlements := c'.settlements, log := c'.log)
    && c'.settlements.Keys == c.settlements.Keys
  }

  lemma AddMember(capacity: int, entries: seq<string>, k: string, x: string)
    requires x in Lru.Add(capacity, entries, k)
    ensures x in entries || x == k
  {
    Lru.WithoutFacts(entries, k);
    if capacity > 0 { assert x in Lru.Without(entries, k) + [k]; }
  }

  lemma HitMember(entries: seq<string>, k: string, x: string)
    ensures x in Lru.Hit(entries, k) <==> x in entries
  {
    Lru.WithoutFacts(entries, k);
  }

  lemma AckSafe(c: Core, id: Option<string>, wanted: bool)
    requires CoreSafe(c)
    requires wanted && id.Some? && !c.cfg.ackOnReceipt ==> AcceptedId(c.log, id.value)
    ensures CoreSafe(SendAckIf(c, id, wanted)) && Follows(c, SendAckIf(c, id, wanted))
    ensures SendAckIf(c, id, wanted).settlements == c.settlements && SendAckIf(c, id, wanted).dedup == c.dedup
  {
    AcceptedGrows(c.log, SendAckIf(c, id, wanted).log);
  }

  lemma SettleSafe(c: Core, env: Envelope, ok: bool)
    requires CoreSafe(c) && (ok ==> Accepted(c.log, env.body))
    ensures CoreSafe(Settle(c, env, ok)) && Follows(c, Settle(c, env, ok))
  {}

  lemma DispatchSafe(c: Core, body: Body)
    requires CoreSafe(c)
    ensures CoreSafe(Dispatch(c, body)) && Follows(c, Dispatch(c, body))
    ensures Handed(body, c.cfg.settles(|c.log|)) in Dispatch(c, body).log
  {
    AcceptedGrows(c.log, Dispatch(c, body).log);
  }

  lemma RememberSafe(c: Core, id: Option<string>)
    requires CoreSafe(c) && (id.Some? ==> AcceptedId(c.log, id.value))
    ensures CoreSafe(Remember(c, id)) && Follows(c, Remember(c, id))
  {
    if id.Some? {
      forall x | x in Remember(c, id).dedup ensures AcceptedId(c.log, x) {
        AddMember(c.cfg.dedupCapacity, c.dedup, id.value, x);
      }
    }
  }

  lemma RefreshSafe(c: Core, id: string)
    requires CoreSafe(c)
    ensures CoreSafe(Refresh(c, id)) && Follows(c, Refresh(c, id))
  {
    forall x ensures x in Refresh(c, id).dedup <==> x in c.dedup { HitMember(c.dedup, id, x); }
  }

  lemma {:induction false} DeliverSafe(c: Core, p: Pending)
    requires CoreSafe(c)
    ensures CoreSafe(Deliver(c, p)) && Follows(c, Deliver(c, p))
    ensures p.env.body.id.Some? ==> HandedId(Deliver(c, p).log, p.env.body.id.value)
  {
    var id, body := p.env.body.id, p.env.body;
    if Known(c, id) {
      var c1 := Refresh(c, id.value);
      RefreshSafe(c, id.value);
      AckSafe(c1, id, p.wsAck);
      var c2 := SendAckIf(c1, id, p.wsAck);
      AcceptedGrows(c1.log, c2.log);
      SettleSafe(c2, p.env, true);
    } else {
      var c1, clean := Dispatch(c, body), c.cfg.settles(|c.log|);
      DispatchSafe(c, body);
      assert Handed(body, clean) in c1.log;
      if !clean {
        SettleSafe(c1, p.env, false);
      } else {
        var c2 := Remember(c1, id);
        RememberSafe(c1, id);
        AckSafe(c2, id, p.wsAck);
        var c3 := SendAckIf(c2, id, p.wsAck);
        AcceptedGrows(c2.log, c3.log);
        SettleSafe(c3, p.env, true);
      }
    }
  }

  lemma {:induction false} DeliverAllSafe(c: Core, ps: seq<Pending>)
    requires CoreSafe(c)
    ensures CoreSafe(DeliverAll(c, ps)) && Follows(c, DeliverAll(c, ps))
    ensures forall p :: p in ps && p.env.body.id.Some? ==> HandedId(DeliverAll(c, ps).log, p.env.body.id.value)
  {
    if ps != [] {
      var init, p := ps[..|ps| - 1], ps[|ps| - 1];
      assert ps == init + [p];
      DeliverAllSafe(c, init);
      DeliverSafe(DeliverAll(c, init), p);
      AcceptedGrows(DeliverAll(c, init).log, DeliverAll(c, ps).log);
    }
  }

  lemma {:induction false} DeliverAllSplit(c: Core, a: seq<Pending>, b: seq<Pending>)
    ensures DeliverAll(c, a + b) == DeliverAll(DeliverAll(c, a), b)
  {
    if b == [] {
      assert a + b == a;
    } else {
      assert (a + b)[..|a + b| - 1] == a + b[..|b| - 1];
      DeliverAllSplit(c, a, b[..|b| - 1]);
    }
  }

  lemma ReportSafe(c: Core, conv: string, gap: Option<GapNotice>)
    requires CoreSafe(c)
    ensures CoreSafe(Report(c, conv, gap)) && Follows(c, Report(c, conv, gap))
  {
    AcceptedGrows(c.log, Report(c, conv, gap).log);
  }

  lemma {:induction false} AckRowsSafe(c: Core, rows: seq<Body>)
    requires CoreSafe(c) && c.cfg.ackOnReceipt
    ensures CoreSafe(AckRows(c, rows)) && Follows(c, AckRows(c, rows))
  {
    if rows != [] {
      AckRowsSafe(c, rows[..|rows| - 1]);
      AckSafe(AckRows(c, rows[..|rows| - 1]), rows[|rows| - 1].id, true);
    }
  }

  // ----- Safety of the engine -----

  ghost predicate OrdersSettled(orders: map<string, OrderState>) {
    forall c :: c in orders ==> Settled(orders[c])
  }

  ghost predicate Safe(e: Engine) {
    CoreSafe(e.core) && OrdersSettled(e.orders)
  }

  ghost predicate Extends(c: Core, c': Core) {
    c.log <= c'.log && c'.cfg == c.cfg && (c.disposed ==> c'.disposed)
  }

  lemma CommitSafe(e: Engine, conv: string, oc: Outcome)
    requires Safe(e) && Settled(oc.state)
    ensures Safe(Commit(e, conv, oc)) && Follows(e.core, Commit(e, conv, oc).core)
  {
    DeliverAllSafe(e.core, oc.out);
    ReportSafe(DeliverAll(e.core, oc.out), conv, oc.gap);
  }

  lemma BelowSafe(c: Core, env: Envelope)
    requires CoreSafe(c)
    ensures var c' := Deliver(c, Pending(env, false)); CoreSafe(c') && Follows(c, c')
    ensures env.body.id.Some? ==> var c' := Refresh(c, env.body.id.value); CoreSafe(c') && Follows(c, c')
  {
    DeliverSafe(c, Pending(env, false));
    if env.body.id.Some? { RefreshSafe(c, env.body.id.value); }
  }

  lemma {:induction false} RouteSafe(e: Engine, env: Envelope, wsAck: bool, ackSpent: bool)
    requires Safe(e)
    ensures Safe(Route(e, env, wsAck, ackSpent).0)
    ensures Follows(e.core, Route(e, env, wsAck, ackSpent).0.core)
  {
    var p, body := Pending(env, wsAck), env.body;
    if body.conv.None? || body.number.None? || body.conv.value !in e.orders {
      DeliverSafe(e.core, p);
    } else if body.number.value < e.orders[body.conv.value].next {
      BelowSafe(e.core, env);
    } else {
      ReceiveOk(e.orders[body.conv.value], p);
      RouteReceives(e, env, wsAck, ackSpent);
      CommitSafe(e, body.conv.value, Receive(e.orders[body.conv.value], body.number.value, p));
    }
  }

  /** A frame at or above the cursor goes through the order state. */
  lemma RouteReceives(e: Engine, env: Envelope, wsAck: bool, ackSpent: bool)
    requires env.body.conv.Some? && env.body.number.Some? && env.body.conv.value in e.orders
    requires env.body.number.value >= e.orders[env.body.conv.value].next
    ensures var conv, s := env.body.conv.value, env.body.number.value;
      Route(e, env, wsAck, ackSpent).0 == Commit(e, conv, Receive(e.orders[conv], s, Pending(env, wsAck)))
  {
  }

  lemma {:induction false} FlushAllSafe(e: Engine, order: seq<string>, reason: GapReason)
    requires CoreSafe(e.core)
    ensures var e' := FlushAll(e, order, reason);
      CoreSafe(e'.core) && Follows(e.core, e'.core) && e'.orders == e.orders
  {
    if order != [] {
      var e1, conv := FlushAll(e, order[..|order| - 1], reason), order[|order| - 1];
      FlushAllSafe(e, order[..|order| - 1], reason);
      if conv in e1.orders {
        var oc := Flush(e1.orders[conv], reason);
        DeliverAllSafe(e1.core, oc.out);
        ReportSafe(DeliverAll(e1.core, oc.out), conv, oc.gap);
      }
    }
  }

  /** Every step keeps the core safe and every conversation settled: parked seqs
      above the cursor, at most 500 of them, and a timer or a fill for any. */
  lemma {:induction false} NextSafe(e: Engine, i: Input)
    requires Safe(e)
    ensures Safe(Next(e, i)) && Extends(e.core, Next(e, i).core)
  {
    if Enabled(e, i) {
      match i
      case FrameIn(body) =>
        if e.core.cfg.ackOnReceipt {
          AckSafe(e.core, body.id, true);
          RouteSafe(e.(core := SendAckIf(e.core, body.id, true)), Envelope(body, None), false, true);
        } else {
          RouteSafe(e, Envelope(body, None), true, false);
        }
      case DrainRow(env) => RouteSafe(e, env, false, false);
      case GapTimer(c) =>
        TimerOk(e.orders[c], e.core.cfg.hasClient);
        CommitSafe(e, c, TimerFired(e.orders[c], e.core.cfg.hasClient));
      case FillBack(c, _, result) => FillSafe(e, c, result);
      case SocketClosed(order) =>
        var e1 := e.(core := e.core.(connected := false, ackNegotiated := false));
        FlushAllSafe(e1, order, ConnectionClosed);
      case Stopped(order) =>
        FlushAllSafe(e.(core := e.core.(disposed := true)), order, GapFillUnavailable);
      case DedupLookup(id) => RefreshSafe(e.core, id);
      case _ =>
    }
  }

  lemma {:induction false} FillSafe(e: Engine, conv: string, result: FillResult)
    requires Safe(e) && conv in e.orders && e.orders[conv].fillFrom.Some?
    ensures Safe(FillStep(e, conv, result)) && Follows(e.core, FillStep(e, conv, result).core)
  {
    var o, receipt := e.orders[conv], e.core.cfg.ackOnReceipt;
    FillOk(o, result, !receipt);
    if receipt && result.Fetched? {
      var rows := Merged(o.buffer, o.fillFrom.value, result.rows, false);
      AckRowsSafe(e.core, rows);
      CommitSafe(e.(core := AckRows(e.core, rows)), conv, FillReturned(o, result, !receipt));
    } else {
      CommitSafe(e, conv, FillReturned(o, result, !receipt));
    }
  }

  ghost function Run(e: Engine, inputs: seq<Input>): Engine {
    if inputs == [] then e else Next(Run(e, inputs[..|inputs| - 1]), inputs[|inputs| - 1])
  }

  lemma {:induction false} RunSafe(e: Engine, inputs: seq<Input>)
    requires Safe(e)
    ensures Safe(Run(e, inputs)) && Extends(e.core, Run(e, inputs).core)
  {
    if inputs != [] {
      RunSafe(e, inputs[..|inputs| - 1]);
      NextSafe(Run(e, inputs[..|inputs| - 1]), inputs[|inputs| - 1]);
    }
  }

  // ----- Cursors over runs, with fills taken in two steps -----

  ghost predicate LivesFresh(e: Engine) {
    forall c :: c in e.orders ==> e.orders[c].life < e.lives
  }

  /** Each order state of the later engine continues one of the earlier, its
      cursor not behind, or is a new one. */
  ghost predicate Continues(e: Engine, e': Engine) {
    && e.lives <= e'.lives
    && forall c :: c in e'.orders ==>
         e.lives <= e'.orders[c].life < e'.lives
         || (c in e.orders && e'.orders[c].life == e.orders[c].life && e'.orders[c].next >= e.orders[c].next)
  }

  lemma CommitContinues(e: Engine, conv: string, oc: Outcome)
    requires conv in e.orders && oc.state.life == e.orders[conv].life && oc.state.next >= e.orders[conv].next
    ensures Continues(e, Commit(e, conv, oc))
  {}

  lemma FrameAdvances(o: OrderState, s: nat, p: Pending)
    ensures Receive(o, s, p).state.life == o.life && Receive(o, s, p).state.next >= o.next
  {
  }

  lemma RouteContinues(e: Engine, env: Envelope, wsAck: bool, ackSpent: bool)
    requires Safe(e)
    ensures Continues(e, Route(e, env, wsAck, ackSpent).0)
  {
    var p, body := Pending(env, wsAck), env.body;
    if body.conv.Some? && body.number.Some? && body.conv.value in e.orders {
      var conv, s := body.conv.value, body.number.value;
      if s >= e.orders[conv].next {
        FrameAdvances(e.orders[conv], s, p);
        RouteReceives(e, env, wsAck, ackSpent);
        CommitContinues(e, conv, Receive(e.orders[conv], s, p));
      }
    }
  }

  lemma {:induction false} FlushKeepsOrders(e: Engine, order: seq<string>, reason: GapReason)
    ensures FlushAll(e, order, reason).orders == e.orders && FlushAll(e, order, reason).lives == e.lives
  {
    if order != [] { FlushKeepsOrders(e, order[..|order| - 1], reason); }
  }

  lemma NextContinues(e: Engine, i: Input)
    requires Safe(e)
    ensures Continues(e, Next(e, i))
  {
    if Enabled(e, i) {
      match i
      case FrameIn(body) =>
        if e.core.cfg.ackOnReceipt {
          AckSafe(e.core, body.id, true);
          RouteContinues(e.(core := SendAckIf(e.core, body.id, true)), Envelope(body, None), false, true);
        } else {
          RouteContinues(e, Envelope(body, None), true, false);
        }
      case DrainRow(env) => RouteContinues(e, env, false, false);
      case GapTimer(c) =>
        TimerOk(e.orders[c], e.core.cfg.hasClient);
        CommitContinues(e, c, TimerFired(e.orders[c], e.core.cfg.hasClient));
      case FillBack(c, _, result) =>
        var oc := FillReturned(e.orders[c], result, !e.core.cfg.ackOnReceipt);
        FillOk(e.orders[c], result, !e.core.cfg.ackOnReceipt);
        CommitContinues(e, c, oc);
      case SocketClosed(order) =>
        FlushKeepsOrders(e.(core := e.core.(connected := false, ackNegotiated := false)), order, ConnectionClosed);
      case Stopped(order) =>
        FlushKeepsOrders(e.(core := e.core.(disposed := true)), order, GapFillUnavailable);
      case _ =>
    }
  }

  /** In no run does the cursor of an order state move back, however late and
      however stale the rows of a history fill. */
  lemma {:induction false} CursorNeverBack(e: Engine, inputs: seq<Input>)
    requires Safe(e) && LivesFresh(e)
    ensures Continues(e, Run(e, inputs)) && LivesFresh(Run(e, inputs))
  {
    if inputs != [] {
      var mid := Run(e, inputs[..|inputs| - 1]);
      CursorNeverBack(e, inputs[..|inputs| - 1]);
      RunSafe(e, inputs[..|inputs| - 1]);
      NextContinues(mid, inputs[|inputs| - 1]);
    }
  }
}
