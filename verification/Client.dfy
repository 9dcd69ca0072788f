/** The client object as the program keeps it: fields and order buffers changed
    in place, each method proved against the step it takes on values. */
module Client {
  import opened Wrappers
  import opened Envelopes
  import opened Ordering
  import opened Delivery
  import opened Lru
  import opened Drain
  import DeliveryLaws
  import DrainLaws
  import DrainReach
  import DrainDone
  import Acks

  class OrderBuffer {
    var next: nat
    var buffer: map<nat, Pending>
    var timer: bool
    var gapStarted: Option<nat>
    var fillFrom: Option<nat>
    const life: nat

    constructor (anchor: nat, life: nat)
      ensures Value() == Anchored(anchor, life)
    {
      next, buffer, timer, gapStarted, fillFrom := anchor + 1, map[], false, None, None;
      this.life := life;
    }

    function Value(): OrderState
      reads this
    {
      OrderState(next, buffer, timer, gapStarted, fillFrom, life)
    }

    method Pop() returns (p: Pending)
      requires next in buffer
      modifies this
      ensures p == old(buffer[next]) && Value() == old(Value()).(buffer := old(buffer) - {old(next)})
    {
      p := buffer[next];
      buffer := buffer - {next};
    }

    method Put(s: nat, p: Pending)
      modifies this
      ensures Value() == old(Value()).(buffer := old(buffer)[s := p]) && s in buffer
    {
      buffer := buffer[s := p];
    }

    method ArmTimer()
      requires buffer != map[]
      modifies this
      ensures Value() == if old(timer) then old(Value()) else old(Value()).(timer := true, gapStarted := Some(next))
      ensures !Idle(Value())
    {
      if !timer { gapStarted, timer := Some(next), true; }
    }

    method Advance()
      modifies this
      ensures Value() == old(Value()).(next := old(next) + 1)
    {
      next := next + 1;
    }

    method Clear(highest: int)
      modifies this
      ensures Value() == old(Value()).(
                buffer := map[], next := if highest >= 0 then highest + 1 else old(next),
                timer := false, gapStarted := None)
    {
      buffer := map[];
      if highest >= 0 { next := highest + 1; }
      timer, gapStarted := false, None;
    }
  }

  /** The order states by conversation, as values. */
  ghost function StatesOf(orders: map<string, OrderBuffer>): map<string, OrderState>
    reads orders.Values
  {
    map c | c in orders :: orders[c].Value()
  }

  ghost predicate Separate(orders: map<string, OrderBuffer>) {
    forall c, d :: c in orders && d in orders && c != d ==> orders[c] != orders[d]
  }

  /** One order buffer changed; it was kept unless it became idle. */
  lemma KeptOrPopped(before: map<string, OrderState>, was: map<string, OrderBuffer>, now: map<string, OrderBuffer>,
                     conv: string, st: OrderBuffer)
    requires conv in was && was[conv] == st && before.Keys == was.Keys
    requires now == if Idle(st.Value()) then was - {conv} else was
    requires forall c :: c in was && c != conv ==> was[c].Value() == before[c]
    ensures StatesOf(now) == if Idle(st.Value()) then before - {conv} else before[conv := st.Value()]
  {}

  /** What may happen outside the drain while it waits for something. */
  datatype Aside =
    | HelloComes(ack: bool)
    | FrameComes(body: Body)
    | TimerDue(conv: string)
    | FillComes(conv: string, result: FillResult)
    | SocketCloses
    | ClientStops
    | RowStored(row: Row)
    | AckLands(id: string)

  class RealtimeClient {
    const cfg: Config
    const dedup: BoundedLruSet
    var connected: bool
    var ackNegotiated: bool
    var disposed: bool
    var settlements: map<Envelope, Option<bool>>
    var tags: nat
    var log: seq<Event>
    var orders: map<string, OrderBuffer>
    var lives: nat

    constructor (cfg: Config)
      ensures Valid() && State() == Start(cfg)
    {
      this.cfg := cfg;
      dedup := new BoundedLruSet(cfg.dedupCapacity);
      connected, ackNegotiated, disposed := false, false, false;
      settlements, tags, log, orders, lives := map[], 0, [], map[], 0;
    }

    ghost predicate Valid()
      reads this
    {
      dedup.capacity == cfg.dedupCapacity && Separate(orders)
    }

    function CoreNow(): Core
      reads this, dedup
    {
      Core(cfg, connected, ackNegotiated, disposed, dedup.entries, settlements, tags, log)
    }

    ghost function State(): Engine
      reads this, dedup, orders.Values
    {
      Engine(CoreNow(), StatesOf(orders), lives)
    }

    // ----- Delivering -----

    method SendDeliveryAck(id: string)
      modifies this
      ensures orders == old(orders) && lives == old(lives)
      ensures CoreNow() == SendAck(old(CoreNow()), id)
    {
      if !ackNegotiated { return; }
      log := log + [Acked(id)];
    }

    method SettleDrainRow(env: Envelope, ok: bool)
      modifies this
      ensures orders == old(orders) && lives == old(lives)
      ensures CoreNow() == Settle(old(CoreNow()), env, ok)
    {
      if env in settlements { settlements := settlements[env := Some(ok)]; }
    }

    method DispatchMessage(body: Body) returns (clean: bool)
      modifies this
      ensures orders == old(orders) && lives == old(lives)
      ensures CoreNow() == Dispatch(old(CoreNow()), body)
      ensures clean == cfg.settles(|old(log)|)
    {
      clean := cfg.settles(|log|);
      log := log + [Handed(body, clean)];
    }

    method DeliverMessageNew(p: Pending)
      requires dedup.capacity == cfg.dedupCapacity
      modifies this, dedup
      ensures orders == old(orders) && lives == old(lives)
      ensures CoreNow() == Deliver(old(CoreNow()), p)
      ensures log == old(log) + Acks.Told(ackNegotiated, Acks.FateOf(old(CoreNow()), p))
    {
      Acks.DeliverTells(CoreNow(), p);
      var id := p.env.body.id;
      if id.Some? {
        var seen := dedup.Contains(id.value);
        if seen {
          if p.wsAck { SendDeliveryAck(id.value); }
          SettleDrainRow(p.env, true);
          return;
        }
      }
      var clean := DispatchMessage(p.env.body);
      if !clean {
        SettleDrainRow(p.env, false);
        return;
      }
      if id.Some? {
        dedup.Insert(id.value);
        if p.wsAck { SendDeliveryAck(id.value); }
      }
      SettleDrainRow(p.env, true);
    }

    method ReportGap(conv: string, notice: GapNotice)
      modifies this
      ensures orders == old(orders) && lives == old(lives)
      ensures CoreNow() == Report(old(CoreNow()), conv, Some(notice))
    {
      if cfg.reportGaps { log := log + [Gap(conv, notice)]; }
    }

    // ----- Ordering -----

    method CleanupIfIdle(conv: string, st: OrderBuffer)
      modifies this
      ensures CoreNow() == old(CoreNow()) && lives == old(lives)
      ensures orders == if Idle(st.Value()) then old(orders) - {conv} else old(orders)
    {
      if st.buffer == map[] && !st.timer && st.fillFrom.None? { orders := orders - {conv}; }
    }

    method MaybeClearGapTimer(st: OrderBuffer)
      modifies st
      ensures st.Value() == ClearTimer(old(st.Value()))
    {
      if st.timer && st.buffer == map[] { st.timer, st.gapStarted := false, None; }
    }

    method DrainConsecutive(conv: string, st: OrderBuffer) returns (drained: bool)
      requires dedup.capacity == cfg.dedupCapacity
      modifies this, dedup, st
      ensures lives == old(lives)
      ensures st.Value() == DrainRun(old(st.Value())).0
      ensures CoreNow() == DeliverAll(old(CoreNow()), DrainRun(old(st.Value())).1)
      ensures drained == (DrainRun(old(st.Value())).1 != [])
      ensures orders == if drained && Idle(st.Value()) then old(orders) - {conv} else old(orders)
    {
      ghost var o := st.Value();
      ghost var out := DrainRun(o).1;
      ghost var k := 0;
      drained := false;
      RunPrefix(o, 0);
      while st.next in st.buffer
        invariant k <= |out| && drained == (k > 0)
        invariant st.Value() == AfterPrefix(o, k)
        invariant CoreNow() == DeliverAll(old(CoreNow()), out[..k])
        invariant orders == old(orders) && lives == old(lives)
        decreases |out| - k
      {
        RunPrefix(o, k);
        DeliverAllNext(old(CoreNow()), out, k);
        var pending := st.Pop();
        DeliverMessageNew(pending);
        st.Advance();
        k := k + 1;
        drained := true;
      }
      RunPrefix(o, k);
      assert out[..k] == out;
      if drained { CleanupIfIdle(conv, st); }
    }

    method FlushBuffer(st: OrderBuffer) returns (highest: int)
      requires dedup.capacity == cfg.dedupCapacity
      modifies this, dedup
      ensures orders == old(orders) && lives == old(lives)
      ensures CoreNow() == DeliverAll(old(CoreNow()), Values(st.buffer, Sorted(st.buffer.Keys)))
      ensures highest == Highest(st.next, Sorted(st.buffer.Keys))
    {
      var keys := Sorted(st.buffer.Keys);
      ghost var out := Values(st.buffer, keys);
      highest := st.next - 1;
      for i := 0 to |keys|
        invariant orders == old(orders) && lives == old(lives)
        invariant highest == Highest(st.next, keys[..i])
        invariant CoreNow() == DeliverAll(old(CoreNow()), out[..i])
      {
        assert keys[i] in keys;
        HighestNext(st.next, keys, i);
        DeliverAllNext(old(CoreNow()), out, i);
        DeliverMessageNew(st.buffer[keys[i]]);
        if keys[i] > highest { highest := keys[i]; }
      }
      assert out[..|keys|] == out && keys[..|keys|] == keys;
    }

    /** The frames and the cursor of a gap given up. */
    method HandParked(st: OrderBuffer, ghost buffered: Option<nat>, ghost recovered: bool, ghost reason: GapReason)
      requires dedup.capacity == cfg.dedupCapacity
      modifies this, dedup, st
      ensures orders == old(orders) && lives == old(lives)
      ensures st.Value() == Resolve(old(st.Value()), buffered, recovered, reason).state
      ensures CoreNow() == DeliverAll(old(CoreNow()), Resolve(old(st.Value()), buffered, recovered, reason).out)
    {
      var highest := FlushBuffer(st);
      st.Clear(highest);
    }

    method ResolveGap(conv: string, st: OrderBuffer, buffered: Option<nat>, recovered: bool, reason: GapReason)
      requires dedup.capacity == cfg.dedupCapacity
      modifies this, dedup, st
      ensures lives == old(lives)
      ensures st.Value() == Resolve(old(st.Value()), buffered, recovered, reason).state
      ensures CoreNow() == Report(
                DeliverAll(old(CoreNow()), Resolve(old(st.Value()), buffered, recovered, reason).out), conv,
                Resolve(old(st.Value()), buffered, recovered, reason).gap)
      ensures orders == if Idle(st.Value()) then old(orders) - {conv} else old(orders)
    {
      var expected := st.gapStarted.GetOr(st.next);
      HandParked(st, buffered, recovered, reason);
      ReportGap(conv, GapNotice(expected, buffered, recovered, reason));
      CleanupIfIdle(conv, st);
    }

    method MinBuffered(st: OrderBuffer) returns (m: Option<nat>)
      ensures m == LeastParked(st.Value())
    {
      if st.buffer.Keys == {} { return None; }
      return Some(Least(st.buffer.Keys));
    }

    method AnchorAt(conv: string, s: nat)
      requires Valid() && conv !in orders
      modifies this
      ensures Valid() && CoreNow() == old(CoreNow()) && lives == old(lives) + 1
      ensures StatesOf(orders) == old(StatesOf(orders))[conv := Anchored(s, old(lives))]
      ensures fresh(orders.Values - old(orders.Values))
    {
      var st := new OrderBuffer(s, lives);
      orders, lives := orders[conv := st], lives + 1;
    }

    /** The first frame of a conversation. */
    method TakeUnordered(p: Pending)
      requires Valid()
      modifies this, dedup
      ensures Valid() && orders == old(orders) && State() == old(State()).(core := Deliver(old(CoreNow()), p))
    {
      DeliverMessageNew(p);
    }

    method TakeFirst(conv: string, s: nat, p: Pending)
      requires Valid() && conv !in orders
      modifies this, dedup
      ensures Valid() && fresh(orders.Values - old(orders.Values))
      ensures State() ==
              Engine(Deliver(old(CoreNow()), p), old(StatesOf(orders))[conv := Anchored(s, old(lives))], old(lives) + 1)
    {
      AnchorAt(conv, s);
      DeliverMessageNew(p);
    }

    method ProcessOrderedMessage(env: Envelope, wsAck: bool, ackSpent: bool) returns (routed: Routed)
      requires Valid()
      modifies this, dedup, orders.Values
      ensures Valid() && (State(), routed) == Route(old(State()), env, wsAck, ackSpent)
      ensures fresh(orders.Values - old(orders.Values))
    {
      var p, body := Pending(env, wsAck), env.body;
      if body.conv.None? || body.number.None? {
        TakeUnordered(p);
        return Delivered;
      }
      var conv, s := body.conv.value, body.number.value;
      if conv !in orders {
        TakeFirst(conv, s, p);
        return Delivered;
      }
      routed := RouteAnchored(conv, s, p, ackSpent);
    }

    method RouteAnchored(conv: string, s: nat, p: Pending, ackSpent: bool) returns (routed: Routed)
      requires Valid() && conv in orders && p.env.body.conv == Some(conv) && p.env.body.number == Some(s)
      modifies this, dedup, orders[conv]
      ensures Valid() && (State(), routed) == Route(old(State()), p.env, p.wsAck, ackSpent)
      ensures orders.Values <= old(orders.Values)
    {
      var st, id := orders[conv], p.env.body.id;
      if s < st.next {
        if !ackSpent { return Duplicate; }
        if id.Some? {
          var seen := dedup.Contains(id.value);
          if seen { return Duplicate; }
        }
        DeliverMessageNew(Pending(p.env, false));
        return Delivered;
      }
      if s == st.next {
        TakeInOrder(conv, st, p);
        return Delivered;
      }
      ParkFrame(conv, st, s, p);
      return Buffered;
    }

    method HandInOrder(conv: string, st: OrderBuffer, p: Pending)
      requires dedup.capacity == cfg.dedupCapacity
      modifies this, dedup, st
      ensures st.Value() == InOrder(old(st.Value()), p).state && lives == old(lives)
      ensures CoreNow() == DeliverAll(old(CoreNow()), InOrder(old(st.Value()), p).out)
      ensures orders == old(orders) || (orders == old(orders) - {conv} && Idle(st.Value()))
    {
      DeliverMessageNew(p);
      st.Advance();
      InOrderIs(old(CoreNow()), old(st.Value()), st.Value(), p);
      var drained := DrainConsecutive(conv, st);
      MaybeClearGapTimer(st);
    }

    method TakeInOrder(conv: string, st: OrderBuffer, p: Pending)
      requires Valid() && conv in orders && orders[conv] == st
      modifies this, dedup, st
      ensures Valid() && State() == Commit(old(State()), conv, InOrder(old(st.Value()), p))
      ensures orders.Values <= old(orders.Values)
    {
      HandInOrder(conv, st, p);
      CleanupIfIdle(conv, st);
      KeptOrPopped(old(StatesOf(orders)), old(orders), orders, conv, st);
    }

    method ParkFrame(conv: string, st: OrderBuffer, s: nat, p: Pending)
      requires Valid() && conv in orders && orders[conv] == st
      modifies this, dedup, st
      ensures Valid() && State() == Commit(old(State()), conv, Park(old(st.Value()), s, p))
      ensures orders.Values <= old(orders.Values)
    {
      st.Put(s, p);
      if |st.buffer| > MAX_BUFFERED {
        var least := MinBuffered(st);
        ResolveGap(conv, st, least, false, BufferOverflow);
      } else {
        st.ArmTimer();
      }
      KeptOrPopped(old(StatesOf(orders)), old(orders), orders, conv, st);
    }

    /** One `message.new` frame off the live socket. */
    method ReceiveLive(body: Body)
      requires Valid()
      modifies this, dedup, orders.Values
      ensures Valid() && State() == Receipt(old(State()), body)
      ensures fresh(orders.Values - old(orders.Values))
    {
      var env := Envelope(body, None);
      if cfg.ackOnReceipt {
        if body.id.Some? { SendDeliveryAck(body.id.value); }
        assert StatesOf(orders) == old(StatesOf(orders));
        var _ := ProcessOrderedMessage(env, false, true);
      } else {
        var _ := ProcessOrderedMessage(env, true, false);
      }
    }

    // ----- The gap timer and its history fill -----

    /** The timer fired. The result is the seq to fetch from, when a fetch starts. */
    method HandleGapTimer(conv: string) returns (fetch: Option<nat>)
      requires Valid()
      modifies this, dedup, orders.Values
      ensures Valid() && orders.Values <= old(orders.Values)
      ensures conv !in old(orders) ==> State() == old(State()) && fetch.None?
      ensures conv in old(orders) ==>
                && State() == TimerStep(old(State()), conv)
                && (fetch.Some? ==>
                      conv in orders && orders[conv] == old(orders)[conv] && orders[conv].fillFrom == fetch)
    {
      if conv !in orders { return None; }
      fetch := TimerExpired(conv, orders[conv]);
    }

    method TimerExpired(conv: string, st: OrderBuffer) returns (fetch: Option<nat>)
      requires Valid() && conv in orders && orders[conv] == st
      modifies this, dedup, st
      ensures Valid() && orders.Values <= old(orders.Values)
      ensures State() == TimerStep(old(State()), conv)
      ensures fetch.Some? ==> conv in orders && orders[conv] == st && st.fillFrom == fetch
    {
      fetch := None;
      st.timer := false;
      if st.buffer == map[] {
        CleanupIfIdle(conv, st);
      } else if !cfg.hasClient {
        var least := MinBuffered(st);
        ResolveGap(conv, st, least, false, GapFillUnavailable);
      } else if st.fillFrom.None? {
        st.fillFrom := Some(st.next);
        fetch := st.fillFrom;
      }
      KeptOrPopped(old(StatesOf(orders)), old(orders), orders, conv, st);
    }

    /** The fetch came back for the order buffer it was started on; by now that
        buffer may have been discarded, and even replaced by another. */
    method FinishGapFill(conv: string, st: OrderBuffer, expected: nat, result: FillResult)
      requires Valid() && st.fillFrom == Some(expected)
      requires forall c :: c in orders && c != conv ==> orders[c] != st
      modifies this, dedup, st
      ensures Valid() && orders.Values <= old(orders.Values)
      ensures !(conv in old(orders) && old(orders)[conv] == st) ==> State() == old(State())
      ensures conv in old(orders) && old(orders)[conv] == st ==> State() == FillStep(old(State()), conv, result)
    {
      if conv in orders && orders[conv] == st {
        FillHere(conv, st, expected, result);
      } else {
        st.fillFrom := None;
        assert StatesOf(orders) == old(StatesOf(orders));
      }
    }

    method FillHere(conv: string, st: OrderBuffer, expected: nat, result: FillResult)
      requires Valid() && conv in orders && orders[conv] == st && st.fillFrom == Some(expected)
      modifies this, dedup, st
      ensures Valid() && orders.Values <= old(orders.Values) && State() == FillStep(old(State()), conv, result)
    {
      st.fillFrom := None;
      ApplyFill(conv, st, expected, result);
      assert forall c :: c in orders && c != conv ==> orders[c].Value() == old(orders[c].Value());
      KeptOrPopped(old(StatesOf(orders)), old(orders), orders, conv, st);
    }

    method ApplyFill(conv: string, st: OrderBuffer, expected: nat, result: FillResult)
      requires dedup.capacity == cfg.dedupCapacity && st.fillFrom.None?
      modifies this, dedup, st
      ensures lives == old(lives)
      ensures var o, receipt := old(st.Value()).(fillFrom := Some(expected)), cfg.ackOnReceipt;
        st.Value() == FillReturned(o, result, !receipt).state
      ensures CoreNow() == FilledCore(old(CoreNow()), conv, old(st.Value()).(fillFrom := Some(expected)), result)
      ensures orders == if Idle(st.Value()) then old(orders) - {conv} else old(orders)
    {
      ghost var o := st.Value().(fillFrom := Some(expected));
      match result
      case FillError =>
        var least := MinBuffered(st);
        ResolveGap(conv, st, least, false, GapFillFailed);
      case Fetched(rows) =>
        MergeRows(st, expected, rows);
        FinishMerged(conv, st);
        FillParts(old(CoreNow()), conv, o, rows);
    }

    method MergeRows(st: OrderBuffer, expected: nat, rows: seq<Body>)
      modifies this, st
      ensures orders == old(orders) && lives == old(lives)
      ensures st.Value() == old(st.Value()).(buffer := Merge(old(st.buffer), expected, rows, !cfg.ackOnReceipt))
      ensures CoreNow() ==
              if cfg.ackOnReceipt
              then AckRows(old(CoreNow()), Merged(old(st.buffer), expected, rows, !cfg.ackOnReceipt))
              else old(CoreNow())
    {
      ghost var c, b, wsAck := CoreNow(), st.buffer, !cfg.ackOnReceipt;
      for i := 0 to |rows|
        invariant orders == old(orders) && lives == old(lives)
        invariant st.Value() == old(st.Value()).(buffer := Merge(b, expected, rows[..i], wsAck))
        invariant CoreNow() == if cfg.ackOnReceipt then AckRows(c, Merged(b, expected, rows[..i], wsAck)) else c
      {
        var row := rows[i];
        MergeNext(c, b, expected, rows, i, wsAck);
        if RowFits(st.buffer, expected, row) {
          if cfg.ackOnReceipt && row.id.Some? { SendDeliveryAck(row.id.value); }
          st.Put(row.number.value, Pending(Envelope(row, None), !cfg.ackOnReceipt));
        }
      }
      assert rows[..|rows|] == rows;
    }

    method FinishMerged(conv: string, st: OrderBuffer)
      requires dedup.capacity == cfg.dedupCapacity
      modifies this, dedup, st
      ensures lives == old(lives)
      ensures st.Value() == AfterRun(old(st.Value())).state
      ensures CoreNow() == MergedCore(old(CoreNow()), conv, old(st.Value()))
      ensures orders == if Idle(st.Value()) then old(orders) - {conv} else old(orders)
    {
      var drained := DrainConsecutive(conv, st);
      if drained {
        ResolveGap(conv, st, None, true, GapFilled);
      } else {
        var least := MinBuffered(st);
        ResolveGap(conv, st, least, false, GapFillFailed);
      }
    }

    // ----- Closing -----

    /** Before the i-th conversation of a flush: those still to come are as they
        were in e. */
    ghost predicate Flushing(e: Engine, order: seq<string>, reason: GapReason, i: nat)
      reads this, dedup, orders.Values
    {
      && Valid() && i <= |order| && Enumerates(order, e) && orders.Keys == e.orders.Keys && lives == e.lives
      && CoreNow() == FlushAll(e, order[..i], reason).core
      && (forall k :: i <= k < |order| ==> order[k] in orders && orders[order[k]].Value() == e.orders[order[k]])
    }

    method FlushNth(ghost e: Engine, order: seq<string>, reason: GapReason, i: nat)
      requires i < |order| && Flushing(e, order, reason, i)
      modifies this, dedup, orders.Values
      ensures orders == old(orders) && Flushing(e, order, reason, i + 1)
    {
      FlushNext(e, order, reason, i);
      var conv := order[i];
      FlushConversation(conv, orders[conv], reason);
      forall k | i < k < |order| ensures order[k] in orders && orders[order[k]].Value() == e.orders[order[k]] {
        assert order[k] != conv && orders[order[k]] != orders[conv];
      }
    }

    /** Hand over what is parked, conversation by conversation in `order`. */
    method FlushParkedFrames(order: seq<string>, reason: GapReason)
      requires Valid() && Enumerates(order, State())
      modifies this, dedup, orders.Values
      ensures Valid() && orders == map[] && lives == old(lives)
      ensures CoreNow() == FlushAll(old(State()), order, reason).core
    {
      ghost var e := State();
      forall k | 0 <= k < |order| ensures order[k] in orders { assert order[k] in order; }
      for i := 0 to |order|
        invariant orders == old(orders) && Flushing(e, order, reason, i)
      {
        FlushNth(e, order, reason, i);
      }
      assert order[..|order|] == order;
      orders := map[];
    }

    method FlushConversation(conv: string, st: OrderBuffer, reason: GapReason)
      requires dedup.capacity == cfg.dedupCapacity
      modifies this, dedup, st
      ensures orders == old(orders) && lives == old(lives)
      ensures CoreNow() == Report(
                DeliverAll(old(CoreNow()), Flush(old(st.Value()), reason).out), conv,
                Flush(old(st.Value()), reason).gap)
    {
      st.timer := false;
      if st.buffer == map[] { return; }
      var keys := Sorted(st.buffer.Keys);
      var expected := st.gapStarted.GetOr(st.next);
      assert st.buffer.Keys != {};
      var _ := FlushBuffer(st);
      st.buffer := map[];
      ReportGap(conv, GapNotice(expected, Some(keys[0]), false, reason));
    }

    method CloseSocket(order: seq<string>)
      requires Valid() && Enumerates(order, State())
      modifies this, dedup, orders.Values
      ensures Valid() && orders == map[] && State() == Closed(old(State()), order)
    {
      connected, ackNegotiated := false, false;
      assert StatesOf(orders) == old(StatesOf(orders));
      if cfg.ackOnReceipt { FlushParkedFrames(order, ConnectionClosed); }
      orders := map[];
      assert StatesOf(orders) == map[];
      ghost var closed := old(CoreNow()).(connected := false, ackNegotiated := false);
      DeliveryLaws.FlushKeepsOrders(old(State()).(core := closed), order, ConnectionClosed);
    }

    method Disconnect(order: seq<string>)
      requires Valid() && Enumerates(order, State())
      modifies this, dedup, orders.Values
      ensures Valid() && orders == map[] && State() == Disposed(old(State()), order)
    {
      disposed := true;
      assert StatesOf(orders) == old(StatesOf(orders));
      FlushParkedFrames(order, GapFillUnavailable);
      connected, ackNegotiated := false, false;
      assert StatesOf(orders) == map[];
      ghost var stopped := old(CoreNow()).(disposed := true);
      DeliveryLaws.FlushKeepsOrders(old(State()).(core := stopped), order, GapFillUnavailable);
    }

    // ----- What happens while the drain waits -----

    /** The conversations, each once. */
    method Enumerate() returns (order: seq<string>)
      ensures Distinct(order) && forall c :: c in order <==> c in orders
    {
      order := [];
      var left := orders.Keys;
      while left != {}
        invariant left <= orders.Keys && Distinct(order) && forall c :: c in order <==> c in orders.Keys - left
        decreases left
      {
        var c :| c in left;
        DistinctMore(order, c);
        order, left := order + [c], left - {c};
      }
    }

    method AcceptHello(ack: bool)
      requires Valid() && !connected && !disposed
      modifies this
      ensures Valid() && orders == old(orders) && State() == Next(old(State()), HelloOk(ack))
    {
      connected, ackNegotiated := true, ack;
      assert StatesOf(orders) == old(StatesOf(orders));
    }

    /** A fill comes back for the order buffer a conversation has now. */
    method FillArrives(conv: string, result: FillResult)
      requires Valid() && conv in orders && orders[conv].fillFrom.Some?
      modifies this, dedup, orders.Values
      ensures Valid() && orders.Values <= old(orders.Values) && State() == FillStep(old(State()), conv, result)
    {
      var st := orders[conv];
      FinishGapFill(conv, st, st.fillFrom.value, result);
    }

    /** The client's side of it, when it can happen. */
    method LiveHappens(out: Aside) returns (ghost input: Option<Input>)
      requires Valid()
      modifies this, dedup, orders.Values
      ensures Valid() && fresh(orders.Values - old(orders.Values))
      ensures input.Some? ==> FromOutside(input.value) && Enabled(old(State()), input.value)
      ensures State() == if input.Some? then Next(old(State()), input.value) else old(State())
    {
      input := None;
      match out
      case HelloComes(ack) =>
        if !connected && !disposed {
          input := Some(HelloOk(ack));
          AcceptHello(ack);
        }
      case FrameComes(body) =>
        if connected && !disposed {
          input := Some(FrameIn(body));
          ReceiveLive(body);
        }
      case TimerDue(conv) =>
        if conv in orders && orders[conv].timer {
          input := Some(GapTimer(conv));
          var _ := HandleGapTimer(conv);
        }
      case FillComes(conv, result) =>
        if conv in orders && orders[conv].fillFrom.Some? {
          input := Some(FillBack(conv, orders[conv].life, result));
          FillArrives(conv, result);
        }
      case SocketCloses => input := EndHappens(false);
      case ClientStops => input := EndHappens(true);
      case _ =>
    }

    method EndHappens(stops: bool) returns (ghost input: Option<Input>)
      requires Valid()
      modifies this, dedup, orders.Values
      ensures Valid() && orders == map[]
      ensures input.Some? && FromOutside(input.value) && Enabled(old(State()), input.value)
      ensures State() == Next(old(State()), input.value)
    {
      var order := Enumerate();
      if stops {
        input := Some(Stopped(order));
        Disconnect(order);
      } else {
        input := Some(SocketClosed(order));
        CloseSocket(order);
      }
    }

    method Happens(server: Server, out: Aside, ghost phase: Phase) returns (server': Server, ghost moves: seq<Move>)
      requires Valid()
      modifies this, dedup, orders.Values
      ensures Valid() && fresh(orders.Values - old(orders.Values))
      ensures System(server', State(), phase) == Moves(System(server, old(State()), phase), moves)
    {
      ghost var s := System(server, State(), phase);
      server', moves := server, [];
      if out.RowStored? {
        if !out.row.delivered && (out.row.cursor.None? || !Names(server, out.row.cursor.value)) {
          OneMove(s, RowAdded(out.row));
          server', moves := server + [out.row], [RowAdded(out.row)];
        }
      } else if out.AckLands? {
        if Acked(out.id) in log {
          OneMove(s, AckReaches(out.id));
          server', moves := MarkId(server, out.id), [AckReaches(out.id)];
        }
      } else {
        ghost var input := LiveHappens(out);
        if input.Some? {
          OneMove(s, Live(input.value));
          moves := [Live(input.value)];
        }
      }
    }

    /** Everything that happens during one wait. */
    method Meanwhile(server: Server, outs: seq<Aside>, ghost phase: Phase)
      returns (server': Server, ghost moves: seq<Move>)
      requires Valid()
      modifies this, dedup, orders.Values
      ensures Valid() && fresh(orders.Values - old(orders.Values))
      ensures System(server', State(), phase) == Moves(System(server, old(State()), phase), moves)
      ensures outs == [] ==> server' == server && moves == [] && State() == old(State())
    {
      server', moves := server, [];
      ghost var s := System(server, State(), phase);
      for i := 0 to |outs|
        invariant Valid() && fresh(orders.Values - old(orders.Values))
        invariant System(server', State(), phase) == Moves(s, moves)
        invariant outs == [] ==> server' == server && moves == [] && State() == old(State())
      {
        ghost var more;
        server', more := Happens(server', outs[i], phase);
        MovesSplit(s, moves, more);
        moves := moves + more;
      }
    }

    // ----- The offline drain -----

    /** Make the envelopes of a page's clean prefix and watch their settlement. */
    method StartPage(rows: seq<Row>) returns (envs: seq<Envelope>)
      modifies this
      ensures orders == old(orders) && lives == old(lives)
      ensures envs == Wrap(old(tags), Bodies(rows[..CleanPrefix(rows)]))
      ensures CoreNow() == OpenPage(old(CoreNow()), Bodies(rows[..CleanPrefix(rows)]))
    {
      var clean := 0;
      while clean < |rows| && rows[clean].valid
        invariant clean <= |rows| && CleanPrefix(rows) == clean + CleanPrefix(rows[clean..])
      {
        assert rows[clean..][1..] == rows[clean + 1..];
        clean := clean + 1;
      }
      var bodies := Bodies(rows[..clean]);
      envs := Wrap(tags, bodies);
      settlements := map env | env in envs :: None;
      tags := tags + |bodies|;
    }

    method RouteRow(ghost server: Server, ghost at: Cursors, ghost page: seq<nat>, ghost rows: seq<Row>,
                    envs: seq<Envelope>, routed: seq<Routed>)
      returns (routed': seq<Routed>)
      requires Valid() && !disposed && |routed| < |envs|
      modifies this, dedup, orders.Values
      ensures Valid() && !disposed && fresh(orders.Values - old(orders.Values)) && |routed'| == |routed| + 1
      ensures System(server, State(), Phase.Routing(at, page, rows, envs, routed')) ==
              Step(System(server, old(State()), Phase.Routing(at, page, rows, envs, routed)), RowRouted)
    {
      ghost var s := System(server, State(), Phase.Routing(at, page, rows, envs, routed));
      RouteKeepsFlags(State(), envs[|routed|]);
      var outcome := ProcessOrderedMessage(envs[|routed|], false, false);
      routed' := routed + [outcome];
    }

    /** One row, and what happens while its handlers run. */
    method RouteNextRow(server: Server, ghost at: Cursors, ghost page: seq<nat>, ghost rows: seq<Row>,
                        envs: seq<Envelope>, routed: seq<Routed>, outs: seq<Aside>)
      returns (server': Server, routed': seq<Routed>, ghost moves: seq<Move>)
      requires Valid() && !disposed && |routed| < |envs|
      modifies this, dedup, orders.Values
      ensures Valid() && fresh(orders.Values - old(orders.Values)) && |routed'| == |routed| + 1
      ensures Moves(System(server, old(State()), Phase.Routing(at, page, rows, envs, routed)), moves) ==
              System(server', State(), Phase.Routing(at, page, rows, envs, routed'))
      ensures outs == [] ==> server' == server && !disposed && AllOwn(moves)
    {
      ghost var s := System(server, State(), Phase.Routing(at, page, rows, envs, routed));
      routed' := RouteRow(server, at, page, rows, envs, routed);
      OneMove(s, RowRouted);
      ghost var more;
      server', more := Meanwhile(server, outs, Phase.Routing(at, page, rows, envs, routed'));
      MovesSplit(s, [RowRouted], more);
      moves := [RowRouted] + more;
    }

    method RoutePage(server: Server, ghost at: Cursors, ghost page: seq<nat>, ghost rows: seq<Row>,
                     envs: seq<Envelope>, meanwhile: seq<seq<Aside>>)
      returns (server': Server, routed: seq<Routed>, rest: seq<seq<Aside>>, ghost moves: seq<Move>)
      requires Valid()
      modifies this, dedup, orders.Values
      ensures Valid() && fresh(orders.Values - old(orders.Values))
      ensures |routed| <= |envs| && (disposed || |routed| == |envs|) && |rest| <= |meanwhile|
      ensures Moves(System(server, old(State()), Phase.Routing(at, page, rows, envs, [])), moves) ==
              System(server', State(), Phase.Routing(at, page, rows, envs, routed))
      ensures meanwhile == [] && !old(disposed) ==> server' == server && rest == [] && !disposed && AllOwn(moves)
    {
      server', routed, rest, moves := server, [], meanwhile, [];
      ghost var s := System(server, State(), Phase.Routing(at, page, rows, envs, []));
      while |routed| < |envs| && !disposed
        invariant Valid() && fresh(orders.Values - old(orders.Values))
        invariant |routed| <= |envs| && |rest| <= |meanwhile|
        invariant Moves(s, moves) == System(server', State(), Phase.Routing(at, page, rows, envs, routed))
        invariant meanwhile == [] && !old(disposed) ==> server' == server && rest == [] && !disposed && AllOwn(moves)
        decreases |envs| - |routed|
      {
        ghost var more;
        server', routed, more := RouteNextRow(server', at, page, rows, envs, routed, Head(rest));
        rest := Tail(rest);
        MovesSplit(s, moves, more);
        moves := moves + more;
      }
    }

    /** The ack cursor a page allows, and whether acking stops at it. */
    method JudgePage(rows: seq<Row>, envs: seq<Envelope>, routed: seq<Routed>)
      returns (cursor: Option<string>, frozen: bool)
      requires |envs| <= |rows| && |routed| == |envs|
      modifies dedup
      ensures Verdict(CoreNow(), cursor, frozen) == Judge(old(CoreNow()), rows, envs, routed, 0, None)
    {
      cursor, frozen := None, false;
      ghost var v := Judge(CoreNow(), rows, envs, routed, 0, None);
      for i := 0 to |envs|
        invariant v == Judge(CoreNow(), rows, envs, routed, i, cursor)
      {
        var ackable := DrainRowAckable(envs[i], routed[i]);
        if !ackable {
          frozen := true;
          return;
        }
        if rows[i].cursor.Some? { cursor := rows[i].cursor; }
      }
    }

    method DrainRowAckable(env: Envelope, routed: Routed) returns (ok: bool)
      modifies dedup
      ensures (ok, CoreNow()) == RowAckable(old(CoreNow()), env, routed)
    {
      if env in settlements && settlements[env].Some? { return settlements[env].value; }
      if routed.Duplicate? && env.body.id.Some? {
        ok := dedup.Contains(env.body.id.value);
        return;
      }
      return false;
    }

    method EndPage()
      modifies this
      ensures orders == old(orders) && lives == old(lives)
      ensures CoreNow() == old(CoreNow()).(settlements := map[])
    {
      settlements := map[];
    }

    /** The answer to a request arrives: the page's envelopes, unless the client was
        stopped meanwhile or the page is empty. */
    method OpenRows(ghost server: Server, ghost at: Cursors, ghost page: seq<nat>, rows: seq<Row>)
      returns (open: bool, envs: seq<Envelope>)
      requires Valid()
      modifies this
      ensures Valid() && orders == old(orders) && disposed == old(disposed)
      ensures open == (!disposed && rows != []) && (open ==> |envs| <= |rows|)
      ensures System(server, State(), if open then Phase.Routing(at, page, rows, envs, []) else Resting) ==
              Open(System(server, old(State()), Phase.Fetching(at, page, rows)))
    {
      open, envs := !disposed && rows != [], [];
      if open { envs := StartPage(rows); } else { EndPage(); }
    }

    /** Ask for a page, wait, and open it. */
    method FetchPage(server: Server, at: Cursors, page: seq<nat>, outs: seq<Aside>)
      returns (server': Server, open: bool, rows: seq<Row>, envs: seq<Envelope>, ghost moves: seq<Move>)
      requires Valid() && IsPage(server, at.after, page)
      modifies this, dedup, orders.Values
      ensures Valid() && fresh(orders.Values - old(orders.Values)) && (open ==> |envs| <= |rows|)
      ensures Moves(System(server, old(State()), Phase.Asking(at)), moves) ==
              System(server', State(), if open then Phase.Routing(at, page, rows, envs, []) else Resting)
      ensures outs == [] ==> server' == server && disposed == old(disposed) && OnePage(moves, page)
    {
      ghost var s := System(server, State(), Phase.Asking(at));
      rows := RowsAt(server, page);
      OneMove(s, PageRead(page));
      ghost var more;
      server', more := Meanwhile(server, outs, Phase.Fetching(at, page, rows));
      ghost var s1 := System(server', State(), Phase.Fetching(at, page, rows));
      OneMove(s1, PageComes);
      open, envs := OpenRows(server', at, page, rows);
      MovesThrice(s, [PageRead(page)], more, [PageComes]);
      moves := [PageRead(page)] + more + [PageComes];
    }

    /** From a request to the end of its page, against a server that answers the
        commit as `answer` says, with whatever happens during each wait. */
    method DrainPage(server: Server, at: Cursors, page: seq<nat>, answer: CommitAnswer, meanwhile: seq<seq<Aside>>)
      returns (server': Server, next: Option<Cursors>, rest: seq<seq<Aside>>,
               ghost routing: seq<Move>, ghost ending: seq<Move>)
      requires Valid() && !disposed && IsPage(server, at.after, page)
      modifies this, dedup, orders.Values
      ensures Valid() && (next.Some? ==> !disposed) && fresh(orders.Values - old(orders.Values))
      ensures Moves(Moves(System(server, old(State()), Phase.Asking(at)), routing), ending) ==
              System(server', State(), Waiting(next))
      ensures if meanwhile == [] then rest == [] else |rest| < |meanwhile|
      ensures meanwhile == [] && next.Some? ==>
                && SameCursors(server, server') && DrainLaws.PageEnd(ending)
                && RoutingAt(Moves(System(server, old(State()), Phase.Asking(at)), routing), at)
      ensures meanwhile == [] && answer.Taken? ==> OnePage(routing, page) && AllOwn(ending)
    {
      ghost var s := System(server, State(), Phase.Asking(at));
      var open, rows, envs, routed;
      server', open, rows, envs, routing := FetchPage(server, at, page, Head(meanwhile));
      rest, ending, next := Tail(meanwhile), [], None;
      if !open { return; }
      ghost var more;
      server', routed, rest, more := RoutePage(server', at, page, rows, envs, rest);
      MovesSplit(s, routing, more);
      routing := routing + more;
      server', next, rest, ending := CommitPage(server', at, page, rows, envs, routed, answer, rest);
    }

    /** Judge a routed page, commit what it allows, and move on or stop. */
    method CommitPage(server: Server, at: Cursors, ghost page: seq<nat>, rows: seq<Row>, envs: seq<Envelope>,
                      routed: seq<Routed>, answer: CommitAnswer, meanwhile: seq<seq<Aside>>)
      returns (server': Server, next: Option<Cursors>, rest: seq<seq<Aside>>, ghost moves: seq<Move>)
      requires Valid() && |envs| <= |rows| && (disposed || |routed| == |envs|)
      modifies this, dedup, orders.Values
      ensures Valid() && (next.Some? ==> !disposed) && fresh(orders.Values - old(orders.Values))
      ensures Moves(System(server, old(State()), Phase.Routing(at, page, rows, envs, routed)), moves) ==
              System(server', State(), Waiting(next))
      ensures |rest| <= |meanwhile|
      ensures meanwhile == [] ==> DrainLaws.PageEnd(moves) && SameCursors(server, server')
      ensures meanwhile == [] && answer.Taken? ==> AllOwn(moves)
    {
      ghost var s := System(server, State(), Phase.Routing(at, page, rows, envs, routed));
      server', rest, moves := server, meanwhile, [PageRouted];
      OneMove(s, PageRouted);
      if at.frozen || disposed {
        next := FinishPage(server, at, rows, |envs|, s.phase);
        return;
      }
      var cursor, frozen := JudgePage(rows, envs, routed);
      if cursor.None? {
        next := FinishPage(server, at.(frozen := frozen), rows, |envs|, s.phase);
        return;
      }
      ghost var more;
      server', next, more := CommitCursor(
        server, at.(frozen := frozen), rows, |envs|, cursor.value, answer, Head(meanwhile));
      rest := Tail(meanwhile);
      MovesSplit(s, moves, more);
      moves := moves + more;
    }

    method FinishPage(ghost server: Server, at: Cursors, rows: seq<Row>, clean: nat, ghost phase: Phase)
      returns (next: Option<Cursors>)
      requires Valid() && clean <= |rows|
      modifies this
      ensures Valid() && disposed == old(disposed) && orders == old(orders) && (next.Some? ==> !disposed)
      ensures System(server, State(), Waiting(next)) == Finish(System(server, old(State()), phase), at, rows, clean)
    {
      next := NextPage(at, rows, clean);
      EndPage();
    }

    /** Commit, wait, and hear the answer. */
    method CommitCursor(server: Server, at: Cursors, rows: seq<Row>, clean: nat, cursor: string, answer: CommitAnswer,
                        outs: seq<Aside>)
      returns (server': Server, next: Option<Cursors>, ghost moves: seq<Move>)
      requires Valid() && clean <= |rows|
      modifies this, dedup, orders.Values
      ensures Valid() && (next.Some? ==> !disposed) && fresh(orders.Values - old(orders.Values))
      ensures Moves(System(server, old(State()), Phase.Committing(at, rows, clean, cursor)), moves) ==
              System(server', State(), Waiting(next))
      ensures outs == [] ==> |moves| == 1 && moves[0].AckAnswered? && SameCursors(server, server')
      ensures outs == [] && answer.Taken? ==> AllOwn(moves)
    {
      ghost var s := System(server, State(), Phase.Committing(at, rows, clean, cursor));
      server', moves := Meanwhile(server, outs, s.phase);
      ghost var more;
      server', next, more := HearAnswer(server', at, rows, clean, cursor, answer);
      MovesSplit(s, moves, more);
      moves := moves + more;
    }

    method HearAnswer(server: Server, at: Cursors, rows: seq<Row>, clean: nat, cursor: string, answer: CommitAnswer)
      returns (server': Server, next: Option<Cursors>, ghost moves: seq<Move>)
      requires Valid() && clean <= |rows|
      modifies this
      ensures Valid() && disposed == old(disposed) && orders == old(orders) && (next.Some? ==> !disposed)
      ensures Moves(System(server, old(State()), Phase.Committing(at, rows, clean, cursor)), moves) ==
              System(server', State(), Waiting(next))
      ensures |moves| == 1 && moves[0].AckAnswered? && SameCursors(server, server')
      ensures answer.Taken? ==> AllOwn(moves)
    {
      ghost var s := System(server, State(), Phase.Committing(at, rows, clean, cursor));
      var applied, failed := answer != Refused, answer != Taken;
      moves := [AckAnswered(applied, failed)];
      OneMove(s, AckAnswered(applied, failed));
      server' := if applied then MarkThrough(server, cursor) else server;
      if failed {
        EndPage();
        next := None;
      } else {
        next := FinishPage(server', at.(acked := Some(cursor)), rows, clean, s.phase);
      }
    }

    method NextPage(at: Cursors, rows: seq<Row>, clean: nat) returns (next: Option<Cursors>)
      requires clean <= |rows|
      ensures next == Drain.NextPage(at, rows, clean, disposed)
      ensures var last := LastCursor(rows[..clean]);
        if clean == |rows| >= 100 && !disposed && last.Some? && last != at.after
        then next == Some(at.(after := last)) else next == None
    {
      if clean < |rows| || disposed || |rows| < PAGE_SIZE { return None; }
      var last := LastCursor(rows[..clean]);
      if last.None? || last == at.after { return None; }
      return Some(at.(after := last));
    }

    /** Page by page until the server has no more, a page is short or stuck, a row is
        invalid, a call fails or the client is stopped. `sync` answers each request,
        `answers` each commit, and `meanwhile` says what happens during each wait. */
    method DrainOfflineEnvelopes(server: Server, sync: (Server, Option<string>) -> Option<seq<nat>>,
                                 answers: Option<string> -> CommitAnswer, meanwhile: seq<seq<Aside>>)
      returns (server': Server, ghost moves: seq<Move>)
      requires Valid() && DrainLaws.Inv(System(server, State(), Resting))
      requires forall srv, after :: sync(srv, after).Some? ==> IsPage(srv, after, sync(srv, after).value)
      modifies this, dedup, orders.Values
      ensures Valid() && System(server', State(), Resting) == Moves(System(server, old(State()), Resting), moves)
      ensures cfg.hasClient && !old(disposed) && DrainReach.GoodRows(server) && Alone(sync, answers, meanwhile) ==>
                GetsAll(System(server, old(State()), Resting), moves)
    {
      server', moves := server, [];
      if !cfg.hasClient || disposed { return; }
      ghost var s := System(server, State(), Resting);
      ghost var own := [];
      var at, rest := Cursors(None, None, false), meanwhile;
      while true
        invariant Valid() && !disposed && fresh(orders.Values - old(orders.Values))
        invariant Moves(Begun(s), own) == System(server', State(), Phase.Asking(at))
        invariant DrainLaws.Inv(Moves(Begun(s), own))
        invariant Alone(sync, answers, meanwhile) ==> rest == [] && DrainReach.Quiet(Begun(s), own)
        decreases |rest|, |server'| - Through(server', at.after)
      {
        var page := sync(server', at.after);
        ghost var more;
        if page.None? {
          server', more := RequestFails(server', at, Head(rest));
          MovesSplit(Begun(s), own, more);
          moves := Drained(s, own + more);
          return;
        }
        var next, left;
        server', next, left, more := DrainOne(server', at, page.value, answers(at.after), rest);
        if Alone(sync, answers, meanwhile) { PageIsQuiet(Begun(s), own, more, page.value); }
        own := MovesOn(Begun(s), own, more);
        if next.None? {
          moves := Drained(s, own);
          if Alone(sync, answers, meanwhile) && DrainReach.GoodRows(server) { WholeDrain(s, own); }
          return;
        }
        at, rest := next.value, left;
      }
    }

    method RequestFails(server: Server, at: Cursors, outs: seq<Aside>) returns (server': Server, ghost moves: seq<Move>)
      requires Valid()
      modifies this, dedup, orders.Values
      ensures Valid() && fresh(orders.Values - old(orders.Values))
      ensures Moves(System(server, old(State()), Phase.Asking(at)), moves) == System(server', State(), Resting)
    {
      ghost var s := System(server, State(), Phase.Asking(at));
      server', moves := Meanwhile(server, outs, s.phase);
      MovesMore(s, moves, PageFails);
      moves := moves + [PageFails];
      EndPage();
    }

    /** One page of a drain: fewer happenings are to come, or there are none left and
        the read cursor is further along. */
    method DrainOne(server: Server, at: Cursors, page: seq<nat>, answer: CommitAnswer, meanwhile: seq<seq<Aside>>)
      returns (server': Server, next: Option<Cursors>, rest: seq<seq<Aside>>, ghost moves: seq<Move>)
      requires Valid() && !disposed && IsPage(server, at.after, page)
      requires DrainLaws.Inv(System(server, State(), Phase.Asking(at)))
      modifies this, dedup, orders.Values
      ensures Valid() && (next.Some? ==> !disposed) && fresh(orders.Values - old(orders.Values))
      ensures Moves(System(server, old(State()), Phase.Asking(at)), moves) == System(server', State(), Waiting(next))
      ensures if meanwhile == [] then rest == [] else |rest| < |meanwhile|
      ensures meanwhile == [] && next.Some? ==>
                |server'| == |server| && Through(server, at.after) < Through(server', next.value.after) <= |server|
      ensures meanwhile == [] && answer.Taken? ==> OnePage(moves, page)
    {
      ghost var s := System(server, State(), Phase.Asking(at));
      ghost var routing, ending;
      server', next, rest, routing, ending := DrainPage(server, at, page, answer, meanwhile);
      MovesSplit(s, routing, ending);
      moves := routing + ending;
      if meanwhile == [] && next.Some? {
        DrainLaws.MovesInv(s, routing);
        ReadsOn(server, server', at, next.value, Moves(s, routing), ending);
      }
    }
  }

  /** Moves of the drain between a request and the next, the commit taken. */
  ghost predicate AllOwn(ms: seq<Move>) {
    forall i :: 0 <= i < |ms| ==>
      ms[i].PageComes? || ms[i].RowRouted? || ms[i].PageRouted? || ms[i] == AckAnswered(true, false)
  }

  ghost predicate OnePage(ms: seq<Move>, page: seq<nat>) {
    ms != [] && ms[0] == PageRead(page) && AllOwn(ms[1..])
  }

  /** Nothing happens during any wait, no call fails, and the server answers each
      request in full. */
  ghost predicate Alone(sync: (Server, Option<string>) -> Option<seq<nat>>, answers: Option<string> -> CommitAnswer,
                        meanwhile: seq<seq<Aside>>) {
    && meanwhile == [] && (forall after :: answers(after).Taken?)
    && forall srv, after :: sync(srv, after).Some? && DrainReach.FullPage(srv, after, sync(srv, after).value)
  }

  function Begun(s: System): System {
    s.(phase := Phase.Asking(Cursors(None, None, false)))
  }

  /** The drain's moves, its beginning included. */
  lemma Drained(s: System, own: seq<Move>) returns (moves: seq<Move>)
    requires Possible(s, Begin)
    ensures moves == [Begin] + own && Moves(s, moves) == Moves(Begun(s), own)
  {
    moves := [Begin] + own;
    OneMove(s, Begin);
    MovesSplit(s, [Begin], own);
  }

  lemma MovesOn(s: System, own: seq<Move>, more: seq<Move>) returns (all: seq<Move>)
    requires DrainLaws.Inv(Moves(s, own))
    ensures all == own + more && Moves(s, all) == Moves(Moves(s, own), more) && DrainLaws.Inv(Moves(s, all))
  {
    all := own + more;
    MovesSplit(s, own, more);
    DrainLaws.MovesInv(Moves(s, own), more);
  }

  /** Every message stored at the start was routed, once and in order, and if all were
      handed over to handlers that never raise, the server has them all delivered. */
  ghost predicate GetsAll(s: System, moves: seq<Move>) {
    moves != [] && moves[0] == Begin && Reaches(Begun(s), moves[1..])
  }

  ghost predicate Reaches(s: System, ms: seq<Move>) {
    && DrainReach.RoutedBy(s, ms) == DrainReach.Left(s.server, 0)
    && (DrainDone.SettlesAll(s.engine.core) && DrainDone.AllTaken(s, ms) ==>
          forall j :: 0 <= j < |Moves(s, ms).server| ==> Moves(s, ms).server[j].delivered)
  }

  lemma WholeDrain(s: System, own: seq<Move>)
    requires DrainReach.Beginning(Begun(s)) && DrainReach.Quiet(Begun(s), own) && Moves(Begun(s), own).phase.Resting?
    ensures GetsAll(s, [Begin] + own)
  {
    var s1 := Begun(s);
    assert ([Begin] + own)[1..] == own;
    DrainReach.AllRouted(s1, own);
    if DrainDone.SettlesAll(s1.engine.core) && DrainDone.AllTaken(s1, own) { DrainDone.AllDelivered(s1, own); }
  }

  lemma {:induction false} OwnIsQuiet(s: System, ms: seq<Move>)
    requires AllOwn(ms)
    ensures DrainReach.Quiet(s, ms)
  {
    if ms != [] { OwnIsQuiet(s, ms[..|ms| - 1]); }
  }

  lemma PageIsQuiet(s: System, own: seq<Move>, more: seq<Move>, page: seq<nat>)
    requires DrainReach.Quiet(s, own) && OnePage(more, page) && Moves(s, own).phase.Asking?
    requires DrainReach.FullPage(Moves(s, own).server, Moves(s, own).phase.at.after, page)
    ensures DrainReach.Quiet(s, own + more)
  {
    var s1 := Moves(s, own);
    assert [more[0]][..0] == [] && more == [more[0]] + more[1..];
    OwnIsQuiet(Moves(s1, [more[0]]), more[1..]);
    DrainReach.QuietSplit(s1, [more[0]], more[1..]);
    DrainReach.QuietSplit(s, own, more);
  }

  function Head(meanwhile: seq<seq<Aside>>): seq<Aside> {
    if meanwhile == [] then [] else meanwhile[0]
  }

  function Tail(meanwhile: seq<seq<Aside>>): (r: seq<seq<Aside>>)
    ensures if meanwhile == [] then r == [] else |r| == |meanwhile| - 1
  {
    if meanwhile == [] then [] else meanwhile[1..]
  }

  predicate RoutingAt(s: System, at: Cursors) {
    s.phase.Routing? && s.phase.at == at
  }

  lemma DistinctMore(s: seq<string>, x: string)
    requires Distinct(s) && x !in s
    ensures Distinct(s + [x])
  {
  }

  lemma MovesThrice(s: System, a: seq<Move>, b: seq<Move>, c: seq<Move>)
    ensures Moves(s, a + b + c) == Moves(Moves(Moves(s, a), b), c)
  {
    MovesSplit(s, a, b);
    MovesSplit(s, a + b, c);
  }

  /** A page that ends with another to come has moved the read cursor along. */
  lemma ReadsOn(server: Server, server': Server, at: Cursors, next: Cursors, routed: System, ending: seq<Move>)
    requires DrainLaws.Inv(routed) && RoutingAt(routed, at) && DrainLaws.PageEnd(ending)
    requires Moves(routed, ending).phase == Phase.Asking(next) && Moves(routed, ending).server == server'
    requires SameCursors(server, server')
    ensures |server'| == |server| && Through(server, at.after) < Through(server', next.after) <= |server|
  {
    DrainLaws.PageAdvances(routed, ending);
    SameThrough(server, server', at.after);
    SameThrough(server, server', next.after);
  }

  /** Draining changes no row's place and no delivery id. */
  ghost predicate SameCursors(server: Server, server': Server) {
    |server'| == |server| && forall j :: 0 <= j < |server| ==> server'[j].cursor == server[j].cursor
  }

  lemma {:induction false} SameThrough(server: Server, server': Server, c: Option<string>)
    requires SameCursors(server, server')
    ensures Through(server', c) == Through(server, c)
  {
    if c.Some? {
      if Names(server, c.value) {
        assert HasCursor(server', Place(server, c.value), c.value);
        SamePlace(server, server', c.value);
      }
      if Names(server', c.value) { assert HasCursor(server, Place(server', c.value), c.value); }
    }
  }

  lemma {:induction false} SamePlace(server: Server, server': Server, c: string)
    requires SameCursors(server, server') && Names(server, c) && Names(server', c)
    ensures Place(server', c) == Place(server, c)
  {
    var last := |server| - 1;
    if server[last].cursor != Some(c) {
      assert HasCursor(server[..last], Place(server, c), c);
      assert HasCursor(server'[..last], Place(server', c), c);
      SamePlace(server[..last], server'[..last], c);
    }
  }

  lemma {:induction false} DeliverAllFlags(c: Core, ps: seq<Pending>)
    ensures DeliverAll(c, ps).disposed == c.disposed
  {
    if ps != [] { DeliverAllFlags(c, ps[..|ps| - 1]); }
  }

  lemma RouteKeepsFlags(e: Engine, env: Envelope)
    ensures Route(e, env, false, false).0.core.disposed == e.core.disposed
  {
    var body, p := env.body, Pending(env, false);
    if body.conv.Some? && body.number.Some? && body.conv.value in e.orders {
      var o := e.orders[body.conv.value];
      CommitKeepsFlags(e, body.conv.value, InOrder(o, p));
      CommitKeepsFlags(e, body.conv.value, Park(o, body.number.value, p));
    }
  }

  lemma CommitKeepsFlags(e: Engine, conv: string, oc: Outcome)
    ensures Commit(e, conv, oc).core.disposed == e.core.disposed
  {
    DeliverAllFlags(e.core, oc.out);
  }

  datatype CommitAnswer = Taken | TakenUnheard | Refused

  lemma MovesMore(s: System, ms: seq<Move>, m: Move)
    ensures Moves(s, ms + [m]) == Step(Moves(s, ms), m)
  {
    assert (ms + [m])[..|ms|] == ms;
  }

  lemma OneMove(s: System, m: Move)
    ensures Moves(s, [m]) == Step(s, m)
  {
    assert [m][..0] == [];
  }

  lemma {:induction false} MovesSplit(s: System, a: seq<Move>, b: seq<Move>)
    ensures Moves(s, a + b) == Moves(Moves(s, a), b)
  {
    if b == [] {
      assert a + b == a;
    } else {
      assert (a + b)[..|a + b| - 1] == a + b[..|b| - 1];
      MovesSplit(s, a, b[..|b| - 1]);
    }
  }

  // ----- What the loops above compute -----

  ghost function MergedCore(c: Core, conv: string, o: OrderState): Core {
    Report(DeliverAll(DeliverAll(c, DrainRun(o).1), AfterRun(o).out), conv, AfterRun(o).gap)
  }

  ghost function FilledCore(c: Core, conv: string, o: OrderState, result: FillResult): Core
    requires o.fillFrom.Some?
  {
    var receipt := c.cfg.ackOnReceipt;
    var acked :=
      if receipt && result.Fetched? then AckRows(c, Merged(o.buffer, o.fillFrom.value, result.rows, false)) else c;
    var oc := FillReturned(o, result, !receipt);
    Report(DeliverAll(acked, oc.out), conv, oc.gap)
  }

  lemma FillParts(c: Core, conv: string, o: OrderState, rows: seq<Body>)
    requires o.fillFrom.Some?
    ensures var receipt := c.cfg.ackOnReceipt;
      var o2 := o.(fillFrom := None, buffer := Merge(o.buffer, o.fillFrom.value, rows, !receipt));
      var acked := if receipt then AckRows(c, Merged(o.buffer, o.fillFrom.value, rows, !receipt)) else c;
      && FillReturned(o, Fetched(rows), !receipt).state == AfterRun(o2).state
      && FilledCore(c, conv, o, Fetched(rows)) == MergedCore(acked, conv, o2)
  {
    var receipt := c.cfg.ackOnReceipt;
    var o2 := o.(fillFrom := None, buffer := Merge(o.buffer, o.fillFrom.value, rows, !receipt));
    var acked := if receipt then AckRows(c, Merged(o.buffer, o.fillFrom.value, rows, !receipt)) else c;
    assert FillReturned(o, Fetched(rows), !receipt) == MergedOutcome(o2);
    DeliveryLaws.DeliverAllSplit(acked, DrainRun(o2).1, AfterRun(o2).out);
  }

  lemma MergeNext(c: Core, b: map<nat, Pending>, from: nat, rows: seq<Body>, i: nat, wsAck: bool)
    requires i < |rows|
    ensures var before, row := Merge(b, from, rows[..i], wsAck), rows[i];
      && Merge(b, from, rows[..i + 1], wsAck) ==
         (if RowFits(before, from, row)
          then before[row.number.value := Pending(Envelope(row, None), wsAck)] else before)
      && AckRows(c, Merged(b, from, rows[..i + 1], wsAck)) ==
         (if RowFits(before, from, row)
          then SendAckIf(AckRows(c, Merged(b, from, rows[..i], wsAck)), row.id, true)
          else AckRows(c, Merged(b, from, rows[..i], wsAck)))
  {
    assert rows[..i + 1][..i] == rows[..i];
    var taken := Merged(b, from, rows[..i], wsAck);
    assert (taken + [rows[i]])[..|taken|] == taken;
  }

  lemma FlushNext(e: Engine, order: seq<string>, reason: GapReason, i: nat)
    requires i < |order| && Enumerates(order, e)
    ensures order[i] in e.orders
    ensures var before, oc := FlushAll(e, order[..i], reason), Flush(e.orders[order[i]], reason);
      FlushAll(e, order[..i + 1], reason).core == Report(DeliverAll(before.core, oc.out), order[i], oc.gap)
  {
    assert order[..i + 1][..i] == order[..i];
    DeliveryLaws.FlushKeepsOrders(e, order[..i], reason);
    assert order[i] in order;
  }

  function AfterPrefix(o: OrderState, k: nat): OrderState {
    o.(next := o.next + k, buffer := Outside(o.buffer, o.next, o.next + k))
  }

  function Popped(o: OrderState): OrderState {
    o.(buffer := o.buffer - {o.next}, next := o.next + 1)
  }

  /** Where the draining loop stands after k hand-overs. */
  lemma RunPrefix(o: OrderState, k: nat)
    requires k <= |DrainRun(o).1|
    ensures k == 0 ==> AfterPrefix(o, k) == o
    ensures AfterPrefix(o, k).next in AfterPrefix(o, k).buffer <==> k < |DrainRun(o).1|
    ensures k < |DrainRun(o).1| ==>
              && AfterPrefix(o, k).buffer[AfterPrefix(o, k).next] == DrainRun(o).1[k]
              && Popped(AfterPrefix(o, k)) == AfterPrefix(o, k + 1)
    ensures k == |DrainRun(o).1| ==> AfterPrefix(o, k) == DrainRun(o).0
  {
    if k < |DrainRun(o).1| {
      assert o.next + k in o.buffer.Keys;
      assert Popped(AfterPrefix(o, k)).buffer == AfterPrefix(o, k + 1).buffer;
    } else {
      assert o.next + k !in o.buffer.Keys;
    }
    if k == 0 { assert Outside(o.buffer, o.next, o.next) == o.buffer; }
  }

  /** The highest seq handed over so far, from the cursor and a sorted prefix. */
  function Highest(next: nat, keys: seq<nat>): int {
    if keys == [] then next - 1 else Max(next - 1, keys[|keys| - 1])
  }

  lemma HighestNext(next: nat, keys: seq<nat>, i: nat)
    requires i < |keys| && Increasing(keys)
    ensures Highest(next, keys[..i + 1]) == Max(Highest(next, keys[..i]), keys[i])
  {}

  lemma DeliverAllNext(c: Core, ps: seq<Pending>, k: nat)
    requires k < |ps|
    ensures DeliverAll(c, ps[..k + 1]) == Deliver(DeliverAll(c, ps[..k]), ps[k])
  {
    assert ps[..k + 1][..k] == ps[..k];
  }

  lemma InOrderParts(o: OrderState, o1: OrderState, p: Pending)
    requires o1 == o.(next := o.next + 1)
    ensures InOrder(o, p).state == ClearTimer(DrainRun(o1).0)
    ensures InOrder(o, p).out == [p] + DrainRun(o1).1
  {}

  lemma InOrderIs(c: Core, o: OrderState, o1: OrderState, p: Pending)
    requires o1 == o.(next := o.next + 1)
    ensures InOrder(o, p).state == ClearTimer(DrainRun(o1).0)
    ensures DeliverAll(c, InOrder(o, p).out) == DeliverAll(Deliver(c, p), DrainRun(o1).1)
  {
    var out, rest := InOrder(o, p).out, DrainRun(o1).1;
    InOrderParts(o, o1, p);
    assert out == [p] + rest;
    DeliverAllFirst(c, p, rest);
  }

  lemma {:induction false} DeliverAllFirst(c: Core, p: Pending, ps: seq<Pending>)
    ensures DeliverAll(c, [p] + ps) == DeliverAll(Deliver(c, p), ps)
  {
    var all := [p] + ps;
    if ps == [] {
      assert all == [p] && [p][..0] == [];
      assert DeliverAll(c, [p]) == Deliver(DeliverAll(c, []), p);
    } else {
      assert all[..|all| - 1] == [p] + ps[..|ps| - 1];
      DeliverAllFirst(c, p, ps[..|ps| - 1]);
    }
  }
}
