/** Ack on receipt: an acked message is never lost, only handed over or waiting. */
module NoLoss {
  import opened Wrappers
  import opened Envelopes
  import opened Ordering
  import opened OrderingLaws
  import opened Delivery
  import opened DeliveryLaws

  ghost predicate WaitsIn(buffer: map<nat, Pending>, id: string) {
    exists k :: k in buffer && buffer[k].env.body.id == Some(id)
  }

  ghost predicate Parked(orders: map<string, OrderState>, id: string) {
    exists c :: c in orders && WaitsIn(orders[c].buffer, id)
  }

  /** Every acked message was handed to the handlers or is parked. */
  ghost predicate NothingLost(e: Engine) {
    forall id :: Acked(id) in e.core.log ==> HandedId(e.core.log, id) || Parked(e.orders, id)
  }

  // ----- Where bodies come from -----

  /** A conversation and a seq determine the message. */
  type Origin = (string, nat) -> Body

  ghost predicate Genuine(origin: Origin, body: Body) {
    body.conv.Some? && body.number.Some? ==> body == origin(body.conv.value, body.number.value)
  }

  ghost predicate GenuineOrders(origin: Origin, orders: map<string, OrderState>) {
    forall c, k :: c in orders && k in orders[c].buffer ==> orders[c].buffer[k].env.body == origin(c, k)
  }

  ghost predicate GenuineInput(origin: Origin, i: Input) {
    match i
    case FrameIn(body) => Genuine(origin, body)
    case DrainRow(env) => Genuine(origin, env.body)
    case _ => true
  }

  // ----- Delivering -----

  /** A delivery acks nothing but what has been handed over. */
  ghost predicate AcksHanded(c: Core, c': Core) {
    forall id :: Acked(id) in c'.log ==> Acked(id) in c.log || HandedId(c'.log, id)
  }

  lemma DeliverAcks(c: Core, p: Pending)
    requires CoreSafe(c)
    ensures AcksHanded(c, Deliver(c, p))
  {
    DeliverSafe(c, p);
  }

  lemma {:induction false} DeliverAllAcks(c: Core, ps: seq<Pending>)
    requires CoreSafe(c)
    ensures AcksHanded(c, DeliverAll(c, ps))
  {
    if ps != [] {
      var c1, p := DeliverAll(c, ps[..|ps| - 1]), ps[|ps| - 1];
      DeliverAllAcks(c, ps[..|ps| - 1]);
      DeliverAllSafe(c, ps[..|ps| - 1]);
      DeliverAcks(c1, p);
      DeliverSafe(c1, p);
      AcceptedGrows(c1.log, Deliver(c1, p).log);
    }
  }

  lemma DeliveredAcks(c: Core, conv: string, oc: Outcome)
    requires CoreSafe(c)
    ensures var c' := Report(DeliverAll(c, oc.out), conv, oc.gap);
      && AcksHanded(c, c') && Follows(c, c') && CoreSafe(c')
      && forall p :: p in oc.out && p.env.body.id.Some? ==> HandedId(c'.log, p.env.body.id.value)
  {
    var c1 := DeliverAll(c, oc.out);
    DeliverAllAcks(c, oc.out);
    DeliverAllSafe(c, oc.out);
    ReportSafe(c1, conv, oc.gap);
    AcceptedGrows(c1.log, Report(c1, conv, oc.gap).log);
  }

  // ----- One conversation's step -----

  /** Every acked message was handed over, is parked elsewhere, or waits in `buffer`. */
  ghost predicate LostOnlyIn(e: Engine, conv: string, buffer: map<nat, Pending>) {
    forall id :: Acked(id) in e.core.log ==>
      HandedId(e.core.log, id) || Parked(e.orders - {conv}, id) || WaitsIn(buffer, id)
  }

  lemma WaitingGoesOn(buffer: map<nat, Pending>, oc: Outcome, id: string)
    requires WaitsIn(buffer, id) && Keeps(buffer, oc)
    ensures (exists p :: p in oc.out && p.env.body.id == Some(id)) || WaitsIn(oc.state.buffer, id)
  {
    var k :| k in buffer && buffer[k].env.body.id == Some(id);
    assert buffer[k] in oc.out || k in oc.state.buffer;
  }

  lemma CommitKeeps(e: Engine, conv: string, buffer: map<nat, Pending>, oc: Outcome)
    requires CoreSafe(e.core) && LostOnlyIn(e, conv, buffer) && Keeps(buffer, oc)
    ensures NothingLost(Commit(e, conv, oc))
  {
    var e' := Commit(e, conv, oc);
    DeliveredAcks(e.core, conv, oc);
    AcceptedGrows(e.core.log, e'.core.log);
    forall id | Acked(id) in e'.core.log && !HandedId(e'.core.log, id) ensures Parked(e'.orders, id) {
      if Parked(e.orders - {conv}, id) {
        var c :| c in e.orders - {conv} && WaitsIn((e.orders - {conv})[c].buffer, id);
        assert c in e'.orders && e'.orders[c] == e.orders[c];
      } else {
        WaitingGoesOn(buffer, oc, id);
        assert WaitsIn(oc.state.buffer, id);
        assert conv in e'.orders && e'.orders[conv] == oc.state;
      }
    }
  }

  lemma ElsewhereOrHere(e: Engine, conv: string, buffer: map<nat, Pending>)
    requires NothingLost(e) && conv in e.orders
    requires forall id :: WaitsIn(e.orders[conv].buffer, id) ==> WaitsIn(buffer, id)
    ensures LostOnlyIn(e, conv, buffer)
  {
    forall id | Acked(id) in e.core.log && !HandedId(e.core.log, id)
      ensures Parked(e.orders - {conv}, id) || WaitsIn(buffer, id)
    {
      var c :| c in e.orders && WaitsIn(e.orders[c].buffer, id);
      if c != conv { assert c in e.orders - {conv} && (e.orders - {conv})[c] == e.orders[c]; }
    }
  }

  // ----- Routing -----

  /** NothingLost but for the frame now in hand, acked at its receipt. */
  ghost predicate LostOnlyInHand(e: Engine, id: Option<string>) {
    forall x :: Acked(x) in e.core.log && Some(x) != id ==> HandedId(e.core.log, x) || Parked(e.orders, x)
  }

  lemma DeliverKeeps(e: Engine, p: Pending, orders: map<string, OrderState>)
    requires CoreSafe(e.core) && LostOnlyInHand(e, p.env.body.id)
    requires forall c :: c in e.orders ==> c in orders && orders[c] == e.orders[c]
    ensures forall lives :: NothingLost(Engine(Deliver(e.core, p), orders, lives))
  {
    var c' := Deliver(e.core, p);
    DeliverSafe(e.core, p);
    DeliverAcks(e.core, p);
    AcceptedGrows(e.core.log, c'.log);
    forall id | Acked(id) in c'.log && !HandedId(c'.log, id) ensures Parked(orders, id) {
      assert Parked(e.orders, id);
      var c :| c in e.orders && WaitsIn(e.orders[c].buffer, id);
      assert c in orders && WaitsIn(orders[c].buffer, id);
    }
  }

  lemma ParkLost(origin: Origin, e: Engine, conv: string, s: nat, p: Pending)
    requires GenuineOrders(origin, e.orders) && conv in e.orders && p.env.body == origin(conv, s)
    requires LostOnlyInHand(e, p.env.body.id)
    ensures LostOnlyIn(e, conv, e.orders[conv].buffer[s := p])
  {
    var o, id := e.orders[conv], p.env.body.id;
    var buffer := o.buffer[s := p];
    forall x | WaitsIn(o.buffer, x) ensures WaitsIn(buffer, x) {
      var k :| k in o.buffer && o.buffer[k].env.body.id == Some(x);
      assert k in buffer && buffer[k].env.body == origin(conv, k);
    }
    if id.Some? { assert s in buffer && WaitsIn(buffer, id.value); }
    forall x | Acked(x) in e.core.log && !HandedId(e.core.log, x)
      ensures Parked(e.orders - {conv}, x) || WaitsIn(buffer, x)
    {
      if Some(x) != id {
        var c :| c in e.orders && WaitsIn(e.orders[c].buffer, x);
        if c != conv { assert c in e.orders - {conv} && (e.orders - {conv})[c] == e.orders[c]; }
      }
    }
  }

  lemma ParkKeeps(origin: Origin, e: Engine, conv: string, s: nat, p: Pending)
    requires Safe(e) && GenuineOrders(origin, e.orders) && conv in e.orders && s > e.orders[conv].next
    requires p.env.body.number == Some(s) && p.env.body == origin(conv, s)
    requires LostOnlyInHand(e, p.env.body.id)
    ensures NothingLost(Commit(e, conv, Park(e.orders[conv], s, p)))
  {
    ParkLost(origin, e, conv, s, p);
    ParkOk(e.orders[conv], s, p);
    CommitKeeps(e, conv, e.orders[conv].buffer[s := p], Park(e.orders[conv], s, p));
  }

  lemma InOrderLost(e: Engine, conv: string, p: Pending)
    requires conv in e.orders && LostOnlyInHand(e, p.env.body.id)
    requires e.orders[conv].next !in e.orders[conv].buffer
    ensures LostOnlyIn(e, conv, e.orders[conv].buffer[e.orders[conv].next := p])
  {
    var o, id := e.orders[conv], p.env.body.id;
    var buffer := o.buffer[o.next := p];
    assert o.next in buffer;
    forall x | Acked(x) in e.core.log && !HandedId(e.core.log, x)
      ensures Parked(e.orders - {conv}, x) || WaitsIn(buffer, x)
    {
      if Some(x) != id {
        var c :| c in e.orders && WaitsIn(e.orders[c].buffer, x);
        if c != conv {
          assert c in e.orders - {conv} && (e.orders - {conv})[c] == e.orders[c];
        } else {
          var k :| k in o.buffer && o.buffer[k].env.body.id == Some(x);
          assert k in buffer && buffer[k] == o.buffer[k];
        }
      } else {
        assert WaitsIn(buffer, x);
      }
    }
  }

  lemma InOrderKeepsAll(e: Engine, conv: string, p: Pending)
    requires Safe(e) && conv in e.orders && p.env.body.number == Some(e.orders[conv].next)
    requires LostOnlyInHand(e, p.env.body.id)
    ensures NothingLost(Commit(e, conv, InOrder(e.orders[conv], p)))
  {
    var o := e.orders[conv];
    InOrderKeeps(o, p);
    InOrderLost(e, conv, p);
    CommitKeeps(e, conv, o.buffer[o.next := p], InOrder(o, p));
  }

  lemma RouteKeeps(origin: Origin, e: Engine, env: Envelope, wsAck: bool, ackSpent: bool)
    requires Safe(e) && GenuineOrders(origin, e.orders) && Genuine(origin, env.body)
    requires if ackSpent then LostOnlyInHand(e, env.body.id) else NothingLost(e)
    ensures NothingLost(Route(e, env, wsAck, ackSpent).0)
  {
    var p, body := Pending(env, wsAck), env.body;
    if body.conv.None? || body.number.None? {
      DeliverKeeps(e, p, e.orders);
    } else {
      var conv, s := body.conv.value, body.number.value;
      if conv !in e.orders {
        DeliverKeeps(e, p, e.orders[conv := Anchored(s, e.lives)]);
      } else if s < e.orders[conv].next {
        if ackSpent {
          if Known(e.core, body.id) {
            var id := body.id.value;
            var b :| Handed(b, true) in e.core.log && b.id == Some(id);
            assert HandedId(e.core.log, id);
          } else {
            DeliverKeeps(e, Pending(env, false), e.orders);
          }
        }
      } else if s == e.orders[conv].next {
        InOrderKeepsAll(e, conv, p);
      } else {
        ParkKeeps(origin, e, conv, s, p);
      }
    }
  }

  // ----- Fills and closes -----

  lemma {:induction false} RowsAcked(c: Core, rows: seq<Body>, id: string)
    requires Acked(id) in AckRows(c, rows).log
    ensures Acked(id) in c.log || exists r :: r in rows && r.id == Some(id)
  {
    if rows != [] && Acked(id) !in c.log {
      var init, r := rows[..|rows| - 1], rows[|rows| - 1];
      assert rows == init + [r];
      if r.id != Some(id) {
        RowsAcked(c, init, id);
        var x :| x in init && x.id == Some(id);
        assert x in rows;
      } else {
        assert r in rows;
      }
    }
  }

  /** Fetched rows are acked as they enter the buffer, and the same step hands
      the whole buffer over. */
  lemma FillKeeps(e: Engine, conv: string, rows: seq<Body>)
    requires Safe(e) && NothingLost(e) && e.core.cfg.ackOnReceipt
    requires conv in e.orders && e.orders[conv].fillFrom.Some?
    ensures NothingLost(FillStep(e, conv, Fetched(rows)))
  {
    var o := e.orders[conv];
    var from := o.fillFrom.value;
    var buffer, taken := Merge(o.buffer, from, rows, false), Merged(o.buffer, from, rows, false);
    var e1 := e.(core := AckRows(e.core, taken));
    MergeFacts(o.buffer, from, rows, false);
    AckRowsSafe(e.core, taken);
    AcceptedGrows(e.core.log, e1.core.log);
    FillOk(o, Fetched(rows), false);
    forall id | Acked(id) in e1.core.log && !HandedId(e1.core.log, id)
      ensures Parked(e1.orders - {conv}, id) || WaitsIn(buffer, id)
    {
      RowsAcked(e.core, taken, id);
      if Acked(id) in e.core.log {
        var c :| c in e.orders && WaitsIn(e.orders[c].buffer, id);
        if c != conv {
          assert c in e.orders - {conv} && (e.orders - {conv})[c] == e.orders[c];
        } else {
          var k :| k in o.buffer && o.buffer[k].env.body.id == Some(id);
          assert k in buffer && buffer[k] == o.buffer[k];
        }
      } else {
        var r :| r in taken && r.id == Some(id);
        assert buffer[r.number.value].env.body == r;
        assert WaitsIn(buffer, id);
      }
    }
    CommitKeeps(e1, conv, buffer, FillReturned(o, Fetched(rows), false));
  }

  lemma FlushOneHands(e: Engine, conv: string, reason: GapReason, id: string)
    requires Safe(e) && conv in e.orders && WaitsIn(e.orders[conv].buffer, id)
    ensures HandedId(FlushOne(e, conv, reason).core.log, id)
  {
    var oc := Flush(e.orders[conv], reason);
    FlushOk(e.orders[conv], reason);
    WaitingGoesOn(e.orders[conv].buffer, oc, id);
    DeliveredAcks(e.core, conv, oc);
  }

  lemma FlushOneAcks(e: Engine, conv: string, reason: GapReason)
    requires Safe(e)
    ensures AcksHanded(e.core, FlushOne(e, conv, reason).core) && Follows(e.core, FlushOne(e, conv, reason).core)
  {
    if conv in e.orders { DeliveredAcks(e.core, conv, Flush(e.orders[conv], reason)); }
  }

  /** A flush hands over everything parked in the conversations it visits. */
  lemma {:induction false} FlushHands(e: Engine, order: seq<string>, reason: GapReason)
    requires Safe(e)
    ensures var e' := FlushAll(e, order, reason);
      && AcksHanded(e.core, e'.core)
      && forall c, id :: c in order && c in e.orders && WaitsIn(e.orders[c].buffer, id) ==> HandedId(e'.core.log, id)
  {
    if order != [] {
      var init, last := order[..|order| - 1], order[|order| - 1];
      assert order == init + [last];
      var e1, e' := FlushAll(e, init, reason), FlushAll(e, order, reason);
      FlushHands(e, init, reason);
      FlushAllSafe(e, init, reason);
      FlushOneAcks(e1, last, reason);
      AcceptedGrows(e1.core.log, e'.core.log);
      forall c, id | c in order && c in e.orders && WaitsIn(e.orders[c].buffer, id) ensures HandedId(e'.core.log, id) {
        if c == last { FlushOneHands(e1, last, reason, id); }
      }
    }
  }

  lemma FlushLeavesNone(e: Engine, order: seq<string>, reason: GapReason)
    requires Safe(e) && NothingLost(e) && forall c :: c in e.orders ==> c in order
    ensures forall id :: var log := FlushAll(e, order, reason).core.log; Acked(id) in log ==> HandedId(log, id)
  {
    var e' := FlushAll(e, order, reason);
    FlushHands(e, order, reason);
    FlushAllSafe(e, order, reason);
    AcceptedGrows(e.core.log, e'.core.log);
    forall id | Acked(id) in e'.core.log ensures HandedId(e'.core.log, id) {
      if Acked(id) in e.core.log && !HandedId(e.core.log, id) {
        var c :| c in e.orders && WaitsIn(e.orders[c].buffer, id);
        assert c in order;
      }
    }
  }

  // ----- Runs -----

  ghost predicate Sound(origin: Origin, e: Engine) {
    Safe(e) && NothingLost(e) && GenuineOrders(origin, e.orders) && e.core.cfg.ackOnReceipt
  }

  lemma CommitGenuine(origin: Origin, e: Engine, conv: string, oc: Outcome)
    requires GenuineOrders(origin, e.orders)
    requires forall k :: k in oc.state.buffer ==> oc.state.buffer[k].env.body == origin(conv, k)
    ensures GenuineOrders(origin, Commit(e, conv, oc).orders)
  {}

  lemma RouteGenuine(origin: Origin, e: Engine, env: Envelope, wsAck: bool, ackSpent: bool)
    requires GenuineOrders(origin, e.orders) && Genuine(origin, env.body)
    ensures GenuineOrders(origin, Route(e, env, wsAck, ackSpent).0.orders)
  {
    var p, body := Pending(env, wsAck), env.body;
    if body.conv.Some? && body.number.Some? && body.conv.value in e.orders {
      var conv, s := body.conv.value, body.number.value;
      var o := e.orders[conv];
      if s == o.next {
        CommitGenuine(origin, e, conv, InOrder(o, p));
      } else if s > o.next {
        var oc := Park(o, s, p);
        assert oc.state.buffer == o.buffer[s := p] || oc.state.buffer == map[];
        CommitGenuine(origin, e, conv, oc);
      }
    }
  }

  lemma FrameSound(origin: Origin, e: Engine, body: Body)
    requires Sound(origin, e) && Genuine(origin, body)
    ensures NothingLost(Receipt(e, body)) && GenuineOrders(origin, Receipt(e, body).orders)
  {
    var e1 := e.(core := SendAckIf(e.core, body.id, true));
    AckSafe(e.core, body.id, true);
    AcceptedGrows(e.core.log, e1.core.log);
    RouteKeeps(origin, e1, Envelope(body, None), false, true);
    RouteGenuine(origin, e1, Envelope(body, None), false, true);
  }

  lemma FillSound(origin: Origin, e: Engine, conv: string, result: FillResult)
    requires Sound(origin, e) && conv in e.orders && e.orders[conv].fillFrom.Some?
    ensures NothingLost(FillStep(e, conv, result)) && GenuineOrders(origin, FillStep(e, conv, result).orders)
  {
    FillOk(e.orders[conv], result, false);
    match result
    case FillError =>
      ElsewhereOrHere(e, conv, e.orders[conv].buffer);
      CommitKeeps(e, conv, e.orders[conv].buffer, FillReturned(e.orders[conv], FillError, false));
    case Fetched(rows) => FillKeeps(e, conv, rows);
  }

  lemma TimerSound(origin: Origin, e: Engine, conv: string)
    requires Sound(origin, e) && conv in e.orders && e.orders[conv].timer
    ensures NothingLost(TimerStep(e, conv)) && GenuineOrders(origin, TimerStep(e, conv).orders)
  {
    var o, hasClient := e.orders[conv], e.core.cfg.hasClient;
    TimerOk(o, hasClient);
    ElsewhereOrHere(e, conv, o.buffer);
    CommitKeeps(e, conv, o.buffer, TimerFired(o, hasClient));
    CommitGenuine(origin, e, conv, TimerFired(o, hasClient));
  }

  lemma ClosedSound(e: Engine, order: seq<string>)
    requires Safe(e) && NothingLost(e) && e.core.cfg.ackOnReceipt && Enumerates(order, e)
    ensures NothingLost(Closed(e, order)) && NothingLost(Disposed(e, order))
  {
    FlushLeavesNone(e.(core := e.core.(connected := false, ackNegotiated := false)), order, ConnectionClosed);
    FlushLeavesNone(e.(core := e.core.(disposed := true)), order, GapFillUnavailable);
  }

  lemma NextKeeps(origin: Origin, e: Engine, i: Input)
    requires Sound(origin, e) && GenuineInput(origin, i) && Enabled(e, i)
    ensures NothingLost(Next(e, i)) && GenuineOrders(origin, Next(e, i).orders)
  {
    match i
    case FrameIn(body) => FrameSound(origin, e, body);
    case DrainRow(env) =>
      RouteKeeps(origin, e, env, false, false);
      RouteGenuine(origin, e, env, false, false);
    case GapTimer(c) => TimerSound(origin, e, c);
    case FillBack(c, _, result) => FillSound(origin, e, c, result);
    case SocketClosed(order) => ClosedSound(e, order);
    case Stopped(order) => ClosedSound(e, order);
    case _ =>
  }

  lemma {:induction false} NextSound(origin: Origin, e: Engine, i: Input)
    requires Sound(origin, e) && GenuineInput(origin, i)
    ensures Sound(origin, Next(e, i))
  {
    NextSafe(e, i);
    if Enabled(e, i) { NextKeeps(origin, e, i); }
  }

  lemma StartSound(origin: Origin, cfg: Config)
    requires cfg.ackOnReceipt
    ensures Sound(origin, Start(cfg))
  {
  }

  /** At every point of every run each acked message has been handed over or is
      parked, and right after a close or a stop, handed over. */
  lemma {:induction false} AckedNeverLost(origin: Origin, e: Engine, inputs: seq<Input>)
    requires Sound(origin, e) && forall i :: i in inputs ==> GenuineInput(origin, i)
    ensures Sound(origin, Run(e, inputs))
    ensures inputs != [] && (inputs[|inputs| - 1].SocketClosed? || inputs[|inputs| - 1].Stopped?)
            && Enabled(Run(e, inputs[..|inputs| - 1]), inputs[|inputs| - 1]) ==>
              var e' := Run(e, inputs);
              e'.orders == map[] && forall id :: Acked(id) in e'.core.log ==> HandedId(e'.core.log, id)
  {
    if inputs != [] {
      AckedNeverLost(origin, e, inputs[..|inputs| - 1]);
      NextSound(origin, Run(e, inputs[..|inputs| - 1]), inputs[|inputs| - 1]);
    }
  }
}
