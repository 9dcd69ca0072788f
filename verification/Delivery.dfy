/** The delivery choke point and the steps of the engine around it
    (src/agentchatme/_realtime.py:983-997, 1580-1644, 1661-1991), as functions
    on values. Each routing call, timer, fill completion and close is one step. */
module Delivery {
  import opened Wrappers
  import opened Envelopes
  import opened Ordering
  import Lru

  /** `settles` answers, by position in the log, whether every handler of that
      dispatch completed without raising. */
  datatype Config = Config(
    ackOnReceipt: bool, hasClient: bool, reportGaps: bool, dedupCapacity: int, settles: nat -> bool)

  /** What the outside sees: a frame handed to the handlers, a delivery ack
      sent, a gap notice. */
  datatype Event = Handed(body: Body, clean: bool) | Acked(id: string) | Gap(conv: string, notice: GapNotice)

  /** Everything but the ordering. `settlements` holds, for each envelope of the
      drain page being worked on, None until it is handed over and then whether
      it settled cleanly; `tags` numbers the drain envelopes made so far. */
  datatype Core = Core(
    cfg: Config,
    connected: bool,
    ackNegotiated: bool,
    disposed: bool,
    dedup: seq<string>,
    settlements: map<Envelope, Option<bool>>,
    tags: nat,
    log: seq<Event>)

  datatype Engine = Engine(core: Core, orders: map<string, OrderState>, lives: nat)

  // ----- Delivering -----

  function SendAck(c: Core, id: string): Core {
    if c.ackNegotiated then c.(log := c.log + [Acked(id)]) else c
  }

  function SendAckIf(c: Core, id: Option<string>, wanted: bool): Core {
    if wanted && id.Some? then SendAck(c, id.value) else c
  }

  function Settle(c: Core, env: Envelope, ok: bool): Core {
    if env in c.settlements then c.(settlements := c.settlements[env := Some(ok)]) else c
  }

  predicate Known(c: Core, id: Option<string>) {
    id.Some? && id.value in c.dedup
  }

  function Refresh(c: Core, id: string): Core {
    c.(dedup := Lru.Hit(c.dedup, id))
  }

  function Remember(c: Core, id: Option<string>): Core {
    if id.Some? then c.(dedup := Lru.Add(c.cfg.dedupCapacity, c.dedup, id.value)) else c
  }

  function Dispatch(c: Core, body: Body): Core {
    c.(log := c.log + [Handed(body, c.cfg.settles(|c.log|))])
  }

  /** A known id skips the handlers but still counts as settled and acked; a
      dispatch in which a handler raised is neither remembered nor acked. */
  function Deliver(c: Core, p: Pending): Core {
    var id := p.env.body.id;
    if Known(c, id) then
      Settle(SendAckIf(Refresh(c, id.value), id, p.wsAck), p.env, true)
    else
      var c1 := Dispatch(c, p.env.body);
      if !c.cfg.settles(|c.log|) then Settle(c1, p.env, false)
      else Settle(SendAckIf(Remember(c1, id), id, p.wsAck), p.env, true)
  }

  function DeliverAll(c: Core, ps: seq<Pending>): Core {
    if ps == [] then c else Deliver(DeliverAll(c, ps[..|ps| - 1]), ps[|ps| - 1])
  }

  function Report(c: Core, conv: string, gap: Option<GapNotice>): Core {
    if gap.Some? && c.cfg.reportGaps then c.(log := c.log + [Gap(conv, gap.value)]) else c
  }

  /** Acknowledge fetched rows on receipt, in the order fetched. */
  function AckRows(c: Core, rows: seq<Body>): Core {
    if rows == [] then c else SendAckIf(AckRows(c, rows[..|rows| - 1]), rows[|rows| - 1].id, true)
  }

  // ----- Routing -----

  datatype Routed = Delivered | Duplicate | Buffered

  /** Deliver what an ordering step hands over, report its gap, and keep or
      discard the order state. */
  function Commit(e: Engine, conv: string, oc: Outcome): Engine {
    e.(core := Report(DeliverAll(e.core, oc.out), conv, oc.gap),
       orders := if Idle(oc.state) then e.orders - {conv} else e.orders[conv := oc.state])
  }

  function Route(e: Engine, env: Envelope, wsAck: bool, ackSpent: bool): (Engine, Routed) {
    var p, body := Pending(env, wsAck), env.body;
    if body.conv.None? || body.number.None? then
      (e.(core := Deliver(e.core, p)), Delivered)
    else
      var conv, s := body.conv.value, body.number.value;
      if conv !in e.orders then
        (Engine(Deliver(e.core, p), e.orders[conv := Anchored(s, e.lives)], e.lives + 1), Delivered)
      else
        var o := e.orders[conv];
        if s < o.next then
          if !ackSpent then (e, Duplicate)
          else if Known(e.core, body.id) then (e.(core := Refresh(e.core, body.id.value)), Duplicate)
          else (e.(core := Deliver(e.core, Pending(env, false))), Delivered)
        else if s == o.next then (Commit(e, conv, InOrder(o, p)), Delivered)
        else (Commit(e, conv, Park(o, s, p)), Buffered)
  }

  // ----- Steps -----

  datatype Input =
    | HelloOk(ack: bool)
    | FrameIn(body: Body)
    | DrainRow(env: Envelope)
    | GapTimer(conv: string)
    | FillBack(conv: string, life: nat, result: FillResult)
    | SocketClosed(order: seq<string>)
    | Stopped(order: seq<string>)
    | PageOpened(bodies: seq<Body>)
    | PageDone
    | DedupLookup(id: string)

  /** `order` lists each conversation once: the dict's enumeration order. */
  ghost predicate Enumerates(order: seq<string>, e: Engine) {
    Distinct(order) && forall c :: c in order <==> c in e.orders
  }

  ghost predicate Enabled(e: Engine, i: Input) {
    match i
    case HelloOk(_) => !e.core.connected && !e.core.disposed
    case FrameIn(_) => e.core.connected && !e.core.disposed
    case DrainRow(_) => !e.core.disposed
    case GapTimer(c) => c in e.orders && e.orders[c].timer
    case FillBack(c, life, _) => c in e.orders && e.orders[c].life == life && e.orders[c].fillFrom.Some?
    case SocketClosed(order) => Enumerates(order, e)
    case Stopped(order) => Enumerates(order, e)
    case PageOpened(_) => true
    case PageDone => true
    case DedupLookup(_) => true
  }

  /** A live frame: acked here when acks are sent on receipt, else after dispatch. */
  function Receipt(e: Engine, body: Body): Engine {
    if e.core.cfg.ackOnReceipt
    then Route(e.(core := SendAckIf(e.core, body.id, true)), Envelope(body, None), false, true).0
    else Route(e, Envelope(body, None), true, false).0
  }

  function TimerStep(e: Engine, conv: string): Engine
    requires conv in e.orders
  {
    Commit(e, conv, TimerFired(e.orders[conv], e.core.cfg.hasClient))
  }

  /** The core once a fill's rows are acked, where acks are sent on receipt. */
  function FillCore(e: Engine, conv: string, result: FillResult): Core
    requires conv in e.orders && e.orders[conv].fillFrom.Some?
  {
    if e.core.cfg.ackOnReceipt && result.Fetched?
    then AckRows(e.core, Merged(e.orders[conv].buffer, e.orders[conv].fillFrom.value, result.rows, false))
    else e.core
  }

  function FillStep(e: Engine, conv: string, result: FillResult): Engine
    requires conv in e.orders && e.orders[conv].fillFrom.Some?
  {
    Commit(e.(core := FillCore(e, conv, result)), conv,
           FillReturned(e.orders[conv], result, !e.core.cfg.ackOnReceipt))
  }

  function FlushOne(e: Engine, conv: string, reason: GapReason): Engine {
    if conv in e.orders then
      var oc := Flush(e.orders[conv], reason);
      e.(core := Report(DeliverAll(e.core, oc.out), conv, oc.gap))
    else e
  }

  function FlushAll(e: Engine, order: seq<string>, reason: GapReason): Engine {
    if order == [] then e else FlushOne(FlushAll(e, order[..|order| - 1], reason), order[|order| - 1], reason)
  }

  /** Ack-on-receipt hands over what is parked, since it is acked already; the
      default mode drops it, since it is not and will be offered again. */
  function Closed(e: Engine, order: seq<string>): Engine {
    var e1 := e.(core := e.core.(connected := false, ackNegotiated := false));
    var e2 := if e.core.cfg.ackOnReceipt then FlushAll(e1, order, ConnectionClosed) else e1;
    e2.(orders := map[])
  }

  function Disposed(e: Engine, order: seq<string>): Engine {
    var e1 := FlushAll(e.(core := e.core.(disposed := true)), order, GapFillUnavailable);
    e1.(core := e1.core.(connected := false, ackNegotiated := false), orders := map[])
  }

  /** The envelopes the drain makes for a page, each with a tag of its own. */
  function Wrap(tags: nat, bodies: seq<Body>): seq<Envelope> {
    seq(|bodies|, i requires 0 <= i < |bodies| => Envelope(bodies[i], Some(tags + i)))
  }

  function OpenPage(c: Core, bodies: seq<Body>): Core {
    var envs := Wrap(c.tags, bodies);
    c.(settlements := map env | env in envs :: None, tags := c.tags + |bodies|)
  }

  ghost function Next(e: Engine, i: Input): Engine {
    if !Enabled(e, i) then e
    else
      match i
      case HelloOk(ack) => e.(core := e.core.(connected := true, ackNegotiated := ack))
      case FrameIn(body) => Receipt(e, body)
      case DrainRow(env) => Route(e, env, false, false).0
      case GapTimer(c) => TimerStep(e, c)
      case FillBack(c, _, result) => FillStep(e, c, result)
      case SocketClosed(order) => Closed(e, order)
      case Stopped(order) => Disposed(e, order)
      case PageOpened(bodies) => e.(core := OpenPage(e.core, bodies))
      case PageDone => e.(core := e.core.(settlements := map[]))
      case DedupLookup(id) => e.(core := Refresh(e.core, id))
  }

  function Start(cfg: Config): Engine {
    Engine(Core(cfg, false, false, false, [], map[], 0, []), map[], 0)
  }
}
