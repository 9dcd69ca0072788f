/** When the handlers of a conversation see its messages in strict seq order, without
    a gap or a repeat (src/agentchatme/_realtime.py:1656-1659), over runs of the whole
    engine and in both ack modes. */
module SightLaws {
  import opened Wrappers
  import opened Envelopes
  import opened Ordering
  import opened OrderingLaws
  import opened Lives
  import opened Delivery
  import opened DeliveryLaws
  import opened Sight
  import Conversations

  // ----- One order state -----

  /** All it hands over and keeps belongs to the conversation, and its cursor stays
      or ends right behind a frame handed over. */
  ghost predicate Sane(place: Place, conv: string, next: nat, oc: Outcome) {
    && AllFit(place, conv, oc.out) && BufferFits(place, conv, oc.state.buffer)
    && (oc.state.next == next || exists p :: p in oc.out && SeqOf(p) + 1 == oc.state.next)
  }

  lemma OrderlySane(place: Place, conv: string, next: nat, oc: Outcome)
    requires AllFit(place, conv, oc.out) && BufferFits(place, conv, oc.state.buffer) && Orderly(next, oc)
    ensures Sane(place, conv, next, oc)
  {
    if oc.out != [] { assert oc.out[|oc.out| - 1] in oc.out; }
  }

  lemma RunFits(place: Place, conv: string, o: OrderState)
    requires BufferFits(place, conv, o.buffer)
    ensures AllFit(place, conv, DrainRun(o).1) && BufferFits(place, conv, DrainRun(o).0.buffer)
  {
    var run := DrainRun(o).1;
    forall i | 0 <= i < |run| ensures Fits(place, conv, run[i]) { assert o.next + i in o.buffer.Keys; }
  }

  lemma ValuesFit(place: Place, conv: string, buffer: map<nat, Pending>)
    requires BufferFits(place, conv, buffer)
    ensures AllFit(place, conv, Values(buffer, Sorted(buffer.Keys)))
  {
    var keys := Sorted(buffer.Keys);
    forall i | 0 <= i < |keys| ensures Fits(place, conv, Values(buffer, keys)[i]) { assert keys[i] in keys; }
  }

  lemma ReceiveSane(place: Place, conv: string, o: OrderState, p: Pending)
    requires Settled(o) && BufferFits(place, conv, o.buffer) && Fits(place, conv, p) && SeqOf(p) >= o.next
    ensures Sane(place, conv, o.next, Receive(o, SeqOf(p), p))
  {
    ReceiveOk(o, p);
    if SeqOf(p) == o.next { InOrderFits(place, conv, o, p); } else { ParkFits(place, conv, o, p); }
    OrderlySane(place, conv, o.next, Receive(o, SeqOf(p), p));
  }

  lemma InOrderFits(place: Place, conv: string, o: OrderState, p: Pending)
    requires BufferFits(place, conv, o.buffer) && Fits(place, conv, p)
    ensures AllFit(place, conv, InOrder(o, p).out) && BufferFits(place, conv, InOrder(o, p).state.buffer)
  {
    RunFits(place, conv, o.(next := o.next + 1));
  }

  lemma ParkFits(place: Place, conv: string, o: OrderState, p: Pending)
    requires BufferFits(place, conv, o.buffer) && Fits(place, conv, p)
    ensures var oc := Park(o, SeqOf(p), p); AllFit(place, conv, oc.out) && BufferFits(place, conv, oc.state.buffer)
  {
    ValuesFit(place, conv, o.buffer[SeqOf(p) := p]);
  }

  lemma TimerSane(place: Place, conv: string, o: OrderState, hasClient: bool)
    requires Settled(o) && BufferFits(place, conv, o.buffer) && o.timer
    ensures Sane(place, conv, o.next, TimerFired(o, hasClient))
  {
    TimerOk(o, hasClient);
    ValuesFit(place, conv, o.buffer);
    OrderlySane(place, conv, o.next, TimerFired(o, hasClient));
  }

  lemma ResolveSane(place: Place, conv: string, o: OrderState, buffered: Option<nat>, recovered: bool,
                    reason: GapReason)
    requires BufferFits(place, conv, o.buffer) && Keyed(o.buffer)
    ensures Sane(place, conv, o.next, Resolve(o, buffered, recovered, reason))
  {
    var keys, oc := Sorted(o.buffer.Keys), Resolve(o, buffered, recovered, reason);
    ValuesFit(place, conv, o.buffer);
    if oc.state.next != o.next {
      ValueAt(o.buffer, |keys| - 1);
      assert oc.out[|keys| - 1] in oc.out;
    }
  }

  lemma MergedSane(place: Place, conv: string, o: OrderState)
    requires BufferFits(place, conv, o.buffer) && Keyed(o.buffer)
    ensures Sane(place, conv, o.next, MergedOutcome(o))
  {
    var run, oc := DrainRun(o), MergedOutcome(o);
    RunFits(place, conv, o);
    ResolveSane(place, conv, run.0, None, true, GapFilled);
    ResolveSane(place, conv, run.0, LeastParked(run.0), false, GapFillFailed);
    if AfterRun(o).state.next == run.0.next && run.1 != [] {
      RunAt(o, |run.1| - 1);
      assert oc.out[|run.1| - 1] == run.1[|run.1| - 1];
    }
  }

  lemma FillSane(place: Place, conv: string, o: OrderState, result: FillResult, wsAck: bool)
    requires Settled(o) && BufferFits(place, conv, o.buffer) && o.fillFrom.Some?
    requires result.Fetched? ==> RowsNamed(place, conv, result.rows)
    ensures Sane(place, conv, o.next, FillReturned(o, result, wsAck))
  {
    var o1 := o.(fillFrom := None);
    match result
    case FillError => ResolveSane(place, conv, o1, LeastParked(o1), false, GapFillFailed);
    case Fetched(rows) =>
      var b := Merge(o.buffer, o.fillFrom.value, rows, wsAck);
      MergedFits(place, conv, o, rows, wsAck);
      assert FillReturned(o, result, wsAck) == MergedOutcome(o1.(buffer := b));
      MergedSane(place, conv, o1.(buffer := b));
  }

  lemma MergedFits(place: Place, conv: string, o: OrderState, rows: seq<Body>, wsAck: bool)
    requires Settled(o) && BufferFits(place, conv, o.buffer) && o.fillFrom.Some? && RowsNamed(place, conv, rows)
    ensures var b := Merge(o.buffer, o.fillFrom.value, rows, wsAck); BufferFits(place, conv, b) && Keyed(b)
  {
    MergeFacts(o.buffer, o.fillFrom.value, rows, wsAck);
  }

  // ----- The engine -----

  /** A conversation's parked frames are its own, and the frame before its cursor
      has been seen. */
  ghost predicate Rooted(place: Place, c: Core, conv: string, o: OrderState) {
    BufferFits(place, conv, o.buffer) && o.next >= 1 && o.next - 1 in Seen(c.log, conv)
  }

  ghost predicate Grounded(place: Place, e: Engine) {
    && Safe(e) && Remembered(place, e.core)
    && forall conv :: conv in e.orders ==> Rooted(place, e.core, conv, e.orders[conv])
  }

  lemma RootedStays(place: Place, c: Core, c': Core, conv: string, o: OrderState)
    requires Rooted(place, c, conv, o) && c.log <= c'.log
    ensures Rooted(place, c', conv, o)
  {
    SeenGrows(c.log, c'.log, conv);
  }

  lemma ReportUnseen(c: Core, conv: string, gap: Option<GapNotice>, seer: string)
    ensures Seen(Report(c, conv, gap).log, seer) == Seen(c.log, seer)
  {
    if gap.Some? && c.cfg.reportGaps { SeenMore(c.log, Gap(conv, gap.value), seer); }
  }

  lemma ReportRemembers(place: Place, c: Core, conv: string, gap: Option<GapNotice>)
    requires Remembered(place, c)
    ensures Remembered(place, Report(c, conv, gap))
  {
    forall seer ensures Seen(Report(c, conv, gap).log, seer) == Seen(c.log, seer) {
      ReportUnseen(c, conv, gap, seer);
    }
  }

  /** Frames of one conversation delivered and a gap reported: the handlers of no
      other see anything. */
  lemma ToldSeen(place: Place, c: Core, conv: string, ps: seq<Pending>, gap: Option<GapNotice>, seer: string)
    requires CoreSafe(c) && Remembered(place, c) && AllFit(place, conv, ps)
    ensures var c' := Report(DeliverAll(c, ps), conv, gap);
      && CoreSafe(c') && Follows(c, c') && Remembered(place, c')
      && Seen(c'.log, seer) == Seen((if seer == conv then DeliverAll(c, ps) else c).log, seer)
      && forall p :: p in ps ==> SeqOf(p) in Seen(c'.log, conv)
  {
    var c1 := DeliverAll(c, ps);
    DeliverAllSafe(c, ps);
    ReportSafe(c1, conv, gap);
    DeliveriesRemembered(place, c, ps);
    ReportRemembers(place, c1, conv, gap);
    ReportUnseen(c1, conv, gap, seer);
    ReportUnseen(c1, conv, gap, conv);
    if seer != conv { ElsewhereUnseen(c, ps, seer); }
  }

  lemma RootedOn(place: Place, c: Core, c': Core, conv: string, o: OrderState, oc: Outcome)
    requires Rooted(place, c, conv, o) && c.log <= c'.log && Sane(place, conv, o.next, oc)
    requires forall p :: p in oc.out ==> SeqOf(p) in Seen(c'.log, conv)
    ensures Rooted(place, c', conv, oc.state)
  {
    RootedStays(place, c, c', conv, o);
  }

  lemma CommitGrounded(place: Place, e: Engine, conv: string, oc: Outcome)
    requires Grounded(place, e) && conv in e.orders && Sane(place, conv, e.orders[conv].next, oc) && Settled(oc.state)
    ensures Grounded(place, Commit(e, conv, oc))
  {
    var e' := Commit(e, conv, oc);
    CommitSafe(e, conv, oc);
    ToldSeen(place, e.core, conv, oc.out, oc.gap, conv);
    RootedOn(place, e.core, e'.core, conv, e.orders[conv], oc);
    forall c | c in e'.orders ensures Rooted(place, e'.core, c, e'.orders[c]) {
      if c != conv { RootedStays(place, e.core, e'.core, c, e.orders[c]); }
    }
  }

  // ----- When the order breaks -----

  function UnknownKeys(c: Core, buffer: map<nat, Pending>): set<nat> {
    set k | k in buffer && !Known(c, buffer[k].env.body.id)
  }

  /** Of the parked frames, those not seen yet do not follow on from what was seen,
      or one was seen and forgotten. */
  ghost predicate Misfits(c: Core, conv: string, buffer: map<nat, Pending>) {
    !Consecutive(Due(c, conv), UnknownKeys(c, buffer))
  }

  /** A frame was seen and forgotten. */
  predicate Repeats(c: Core, conv: string, ps: seq<Pending>) {
    exists p :: p in ps && !Known(c, p.env.body.id) && SeqOf(p) < Due(c, conv)
  }

  /** An unknown frame that is not the next anchors a state, or arrives below the
      cursor with its ack spent; the expected one releases a frame seen and forgotten;
      or one overflows a buffer that does not follow on. */
  ghost predicate RouteBreaks(e: Engine, env: Envelope, wsAck: bool, ackSpent: bool, conv: string) {
    var p, s, known := Pending(env, wsAck), env.body.number.GetOr(0), Known(e.core, env.body.id);
    OfConv(env.body, conv) &&
    if conv !in e.orders then !known && Seen(e.core.log, conv) != [] && s != Due(e.core, conv)
    else
      var o := e.orders[conv];
      if s < o.next then ackSpent && !known
      else if s == o.next then Repeats(e.core, conv, InOrder(o, p).out)
      else |o.buffer[s := p]| > 500 && Misfits(e.core, conv, o.buffer[s := p])
  }

  /** The run from the cursor repeats, or what is left then does not follow on. */
  ghost predicate FillBreaks(e: Engine, conv: string, result: FillResult)
    requires conv in e.orders && e.orders[conv].fillFrom.Some?
  {
    var o, c := e.orders[conv], FillCore(e, conv, result);
    match result
    case FillError => Misfits(c, conv, o.buffer)
    case Fetched(rows) =>
      var b := Merge(o.buffer, o.fillFrom.value, rows, !e.core.cfg.ackOnReceipt);
      var run := DrainRun(o.(fillFrom := None, buffer := b));
      Repeats(c, conv, run.1) || Misfits(DeliverAll(c, run.1), conv, run.0.buffer)
  }

  /** The flush comes to a buffer that does not follow on. */
  ghost predicate FlushBreaks(e: Engine, order: seq<string>, reason: GapReason, conv: string) {
    order != [] &&
    var n := |order| - 1;
    || FlushBreaks(e, order[..n], reason, conv)
    || (order[n] == conv && conv in e.orders
        && Misfits(FlushAll(e, order[..n], reason).core, conv, e.orders[conv].buffer))
  }

  ghost predicate ClosedBreaks(e: Engine, order: seq<string>, conv: string) {
    var e1 := e.(core := e.core.(connected := false, ackNegotiated := false));
    e.core.cfg.ackOnReceipt && FlushBreaks(e1, order, ConnectionClosed, conv)
  }

  ghost predicate DisposedBreaks(e: Engine, order: seq<string>, conv: string) {
    FlushBreaks(e.(core := e.core.(disposed := true)), order, GapFillUnavailable, conv)
  }

  ghost predicate Breaks(e: Engine, i: Input, conv: string) {
    Enabled(e, i) &&
    match i
    case FrameIn(body) =>
      if e.core.cfg.ackOnReceipt
      then RouteBreaks(e.(core := SendAckIf(e.core, body.id, true)), Envelope(body, None), false, true, conv)
      else RouteBreaks(e, Envelope(body, None), true, false, conv)
    case DrainRow(env) => RouteBreaks(e, env, false, false, conv)
    case GapTimer(c) => c == conv && !e.core.cfg.hasClient && Misfits(e.core, conv, e.orders[conv].buffer)
    case FillBack(c, _, result) => c == conv && FillBreaks(e, conv, result)
    case SocketClosed(order) => ClosedBreaks(e, order, conv)
    case Stopped(order) => DisposedBreaks(e, order, conv)
    case _ => false
  }

  // ----- It breaks exactly then -----

  ghost predicate InStep(c: Core, conv: string) {
    Unbroken(Seen(c.log, conv)) && Seen(c.log, conv) != []
  }

  lemma ValueIs(buffer: map<nat, Pending>, i: nat)
    requires Keyed(buffer) && i < |buffer.Keys|
    ensures var keys := Sorted(buffer.Keys);
      keys[i] in buffer && Values(buffer, keys)[i] == buffer[keys[i]] && SeqOf(buffer[keys[i]]) == keys[i]
  {
    ValueAt(buffer, i);
  }

  lemma ValuesAscend(buffer: map<nat, Pending>)
    requires Keyed(buffer)
    ensures Ascends(0, Values(buffer, Sorted(buffer.Keys)))
  {
    var ps := Values(buffer, Sorted(buffer.Keys));
    forall i, j | 0 <= i < j < |ps| ensures SeqOf(ps[i]) < SeqOf(ps[j]) {
      ValueIs(buffer, i);
      ValueIs(buffer, j);
    }
  }

  lemma ValuesUnknown(c: Core, buffer: map<nat, Pending>)
    requires Keyed(buffer)
    ensures Unknown(c, Values(buffer, Sorted(buffer.Keys))) == UnknownKeys(c, buffer)
  {
    var ps := Values(buffer, Sorted(buffer.Keys));
    forall k | k in UnknownKeys(c, buffer) ensures k in Unknown(c, ps) {
      ValueOf(buffer, k);
      assert buffer[k] in ps && SeqOf(buffer[k]) == k;
    }
    forall k | k in Unknown(c, ps) ensures k in UnknownKeys(c, buffer) {
      var i :| 0 <= i < |ps| && SeqOf(ps[i]) == k && !Known(c, ps[i].env.body.id);
      ValueIs(buffer, i);
    }
  }

  /** Everything parked is handed over: they see it in order unless it misfits. */
  lemma GivenUp(place: Place, c: Core, conv: string, buffer: map<nat, Pending>)
    requires InStep(c, conv) && Remembered(place, c) && BufferFits(place, conv, buffer) && Keyed(buffer)
    ensures var c' := DeliverAll(c, Values(buffer, Sorted(buffer.Keys)));
      Seen(c'.log, conv) != [] && (Unbroken(Seen(c'.log, conv)) <==> !Misfits(c, conv, buffer))
  {
    ValuesFit(place, conv, buffer);
    ValuesUnknown(c, buffer);
    ValuesAscend(buffer);
    SeenUnbroken(place, c, conv, Values(buffer, Sorted(buffer.Keys)));
  }

  /** A run from at most the next due seq on: they see it in order unless it repeats. */
  lemma RunSeen(place: Place, c: Core, conv: string, from: nat, ps: seq<Pending>)
    requires InStep(c, conv) && Remembered(place, c) && AllFit(place, conv, ps)
    requires from <= Due(c, conv) && Contiguous(from, ps)
    ensures var c' := DeliverAll(c, ps);
      Seen(c'.log, conv) != [] && (Unbroken(Seen(c'.log, conv)) <==> !Repeats(c, conv, ps))
  {
    SeenUnbroken(place, c, conv, ps);
    RunUnknown(place, c, conv, from, ps);
  }

  lemma RunUnknown(place: Place, c: Core, conv: string, from: nat, ps: seq<Pending>)
    requires InStep(c, conv) && Remembered(place, c) && AllFit(place, conv, ps)
    requires from <= Due(c, conv) && Contiguous(from, ps)
    ensures Consecutive(Due(c, conv), Unknown(c, ps)) <==> !Repeats(c, conv, ps)
  {
    var due, unknown := Due(c, conv), Unknown(c, ps);
    forall k, s | k in unknown && due <= s <= k ensures s in unknown {
      var q := ps[s - from];
      assert q in ps && SeqOf(q) == s && Fits(place, conv, q);
    }
    if Repeats(c, conv, ps) {
      var p :| p in ps && !Known(c, p.env.body.id) && SeqOf(p) < due;
      assert SeqOf(p) in unknown;
    }
  }

  // ----- One step -----

  /** The step keeps the engine grounded, and the order unless it breaks it. */
  ghost predicate Proceeds(place: Place, e: Engine, e': Engine, conv: string, breaks: bool) {
    && Grounded(place, e')
    && (Unbroken(Seen(e'.core.log, conv)) <==> Unbroken(Seen(e.core.log, conv)) && !breaks)
  }

  lemma StaysBroken(c: Core, c': Core, conv: string)
    requires c.log <= c'.log && Unbroken(Seen(c'.log, conv))
    ensures Unbroken(Seen(c.log, conv))
  {
    var seen, more := Seen(c.log, conv), Seen(c'.log, conv);
    SeenGrows(c.log, c'.log, conv);
    forall i | 0 <= i < |seen| ensures seen[i] == seen[0] + i { assert more[i] == seen[i]; }
  }

  lemma DeliverGrounded(place: Place, e: Engine, p: Pending)
    requires Grounded(place, e) && Named(place, p.env.body)
    ensures Grounded(place, e.(core := Deliver(e.core, p)))
    ensures e.core.log <= Deliver(e.core, p).log
  {
    DeliverSafe(e.core, p);
    DeliveryRemembered(place, e.core, p);
    forall c | c in e.orders ensures Rooted(place, Deliver(e.core, p), c, e.orders[c]) {
      RootedStays(place, e.core, Deliver(e.core, p), c, e.orders[c]);
    }
  }

  lemma RefreshGrounded(place: Place, e: Engine, id: string)
    requires Grounded(place, e)
    ensures Grounded(place, e.(core := Refresh(e.core, id)))
  {
    RefreshSafe(e.core, id);
    forall x ensures x in Refresh(e.core, id).dedup <==> x in e.core.dedup { HitMember(e.core.dedup, id, x); }
    assert Remembered(place, Refresh(e.core, id));
  }

  /** One delivery alone: the handlers see an unknown frame, in order if it is due. */
  lemma OneSeen(c: Core, p: Pending, conv: string)
    ensures OfConv(p.env.body, conv) && !Known(c, p.env.body.id) && Seen(c.log, conv) != [] ==>
      (Unbroken(Seen(Deliver(c, p).log, conv)) <==> Unbroken(Seen(c.log, conv)) && SeqOf(p) == Due(c, conv))
    ensures !OfConv(p.env.body, conv) || Known(c, p.env.body.id) || Seen(c.log, conv) == [] ==>
      (Unbroken(Seen(Deliver(c, p).log, conv)) <==> Unbroken(Seen(c.log, conv)))
  {
    var seen, more := Seen(c.log, conv), Seen(Deliver(c, p).log, conv);
    DeliverSeen(c, p, conv);
    if OfConv(p.env.body, conv) && !Known(c, p.env.body.id) {
      assert more == seen + [SeqOf(p)];
      if seen != [] { UnbrokenMore(seen, SeqOf(p)); }
    } else {
      assert more == seen;
    }
  }

  lemma CursorDue(place: Place, e: Engine, conv: string)
    requires Grounded(place, e) && conv in e.orders
    ensures Seen(e.core.log, conv) != []
    ensures Unbroken(Seen(e.core.log, conv)) ==> e.orders[conv].next <= Due(e.core, conv)
  {
  }

  lemma AnchorKeeps(place: Place, e: Engine, env: Envelope, wsAck: bool, ackSpent: bool, conv: string)
    requires Grounded(place, e) && Named(place, env.body)
    requires env.body.conv.Some? && env.body.number.Some? && env.body.conv.value !in e.orders
    ensures Proceeds(place, e, Route(e, env, wsAck, ackSpent).0, conv, RouteBreaks(e, env, wsAck, ackSpent, conv))
  {
    var p := Pending(env, wsAck);
    AnchorGrounded(place, e, p, env.body.conv.value);
    OneSeen(e.core, p, conv);
    assert Route(e, env, wsAck, ackSpent).0 == AnchoredBy(e, p, env.body.conv.value);
    assert RouteBreaks(e, env, wsAck, ackSpent, conv) <==>
           OfConv(env.body, conv) && !Known(e.core, env.body.id) && Seen(e.core.log, conv) != []
           && SeqOf(p) != Due(e.core, conv);
  }

  function AnchoredBy(e: Engine, p: Pending, c: string): Engine {
    Engine(Deliver(e.core, p), e.orders[c := Anchored(SeqOf(p), e.lives)], e.lives + 1)
  }

  lemma AnchorGrounded(place: Place, e: Engine, p: Pending, c: string)
    requires Grounded(place, e) && Named(place, p.env.body) && OfConv(p.env.body, c)
    ensures Grounded(place, AnchoredBy(e, p, c))
  {
    var e' := AnchoredBy(e, p, c);
    DeliverGrounded(place, e, p);
    DeliveryRemembered(place, e.core, p);
    AnchoredRooted(place, e'.core, c, SeqOf(p), e.lives);
    forall x | x in e'.orders ensures Rooted(place, e'.core, x, e'.orders[x]) && Settled(e'.orders[x]) {
      if x != c { assert e'.orders[x] == e.orders[x]; }
    }
  }

  lemma AnchoredRooted(place: Place, c: Core, conv: string, s: nat, life: nat)
    requires s in Seen(c.log, conv)
    ensures Rooted(place, c, conv, Anchored(s, life)) && Settled(Anchored(s, life))
  {
  }

  lemma BelowKeeps(place: Place, e: Engine, env: Envelope, wsAck: bool, ackSpent: bool, conv: string)
    requires Grounded(place, e) && Named(place, env.body)
    requires env.body.conv.Some? && env.body.number.Some? && env.body.conv.value in e.orders
    requires env.body.number.value < e.orders[env.body.conv.value].next
    ensures Proceeds(place, e, Route(e, env, wsAck, ackSpent).0, conv, RouteBreaks(e, env, wsAck, ackSpent, conv))
  {
    DeliverGrounded(place, e, Pending(env, false));
    OneSeen(e.core, Pending(env, false), conv);
    CursorDue(place, e, env.body.conv.value);
    if env.body.id.Some? { RefreshGrounded(place, e, env.body.id.value); }
  }

  lemma ReceivedKeeps(place: Place, e: Engine, env: Envelope, wsAck: bool, ackSpent: bool, conv: string)
    requires Grounded(place, e) && Named(place, env.body)
    requires env.body.conv.Some? && env.body.number.Some? && env.body.conv.value in e.orders
    requires env.body.number.value >= e.orders[env.body.conv.value].next
    ensures Proceeds(place, e, Route(e, env, wsAck, ackSpent).0, conv, RouteBreaks(e, env, wsAck, ackSpent, conv))
  {
    var c, s, p := env.body.conv.value, env.body.number.value, Pending(env, wsAck);
    var o := e.orders[c];
    ReceiveSane(place, c, o, p);
    ReceiveOk(o, p);
    if c == conv && InStep(e.core, conv) { ReceivedSeen(place, e, conv, p, ackSpent); }
    RouteReceives(e, env, wsAck, ackSpent);
    CommitKeeps(place, e, c, Receive(o, s, p), conv, RouteBreaks(e, env, wsAck, ackSpent, conv));
  }

  lemma ReceivedSeen(place: Place, e: Engine, conv: string, p: Pending, ackSpent: bool)
    requires Grounded(place, e) && conv in e.orders && InStep(e.core, conv)
    requires Fits(place, conv, p) && SeqOf(p) >= e.orders[conv].next
    ensures var out := Receive(e.orders[conv], SeqOf(p), p).out;
      Unbroken(Seen(DeliverAll(e.core, out).log, conv)) <==> !RouteBreaks(e, p.env, p.wsAck, ackSpent, conv)
  {
    if SeqOf(p) == e.orders[conv].next { InOrderSeen(place, e, conv, p); } else { ParkSeen(place, e, conv, p); }
  }

  lemma InOrderSeen(place: Place, e: Engine, conv: string, p: Pending)
    requires Grounded(place, e) && conv in e.orders && InStep(e.core, conv)
    requires Fits(place, conv, p) && SeqOf(p) == e.orders[conv].next
    ensures var out := InOrder(e.orders[conv], p).out;
      Unbroken(Seen(DeliverAll(e.core, out).log, conv)) <==> !Repeats(e.core, conv, out)
  {
    var o := e.orders[conv];
    CursorDue(place, e, conv);
    ReceiveSane(place, conv, o, p);
    InOrderOk(o, p);
    RunSeen(place, e.core, conv, o.next, InOrder(o, p).out);
  }

  lemma ParkSeen(place: Place, e: Engine, conv: string, p: Pending)
    requires Grounded(place, e) && conv in e.orders && InStep(e.core, conv)
    requires Fits(place, conv, p) && SeqOf(p) > e.orders[conv].next
    ensures var o := e.orders[conv]; var b := o.buffer[SeqOf(p) := p];
      Unbroken(Seen(DeliverAll(e.core, Park(o, SeqOf(p), p).out).log, conv)) <==>
      !(|b| > 500 && Misfits(e.core, conv, b))
  {
    var b := e.orders[conv].buffer[SeqOf(p) := p];
    if |b| > 500 {
      GivenUp(place, e.core, conv, b);
    } else {
      assert Park(e.orders[conv], SeqOf(p), p).out == [];
    }
  }

  lemma {:induction false} RouteKeeps(place: Place, e: Engine, env: Envelope, wsAck: bool, ackSpent: bool, conv: string)
    requires Grounded(place, e) && Named(place, env.body)
    ensures Proceeds(place, e, Route(e, env, wsAck, ackSpent).0, conv, RouteBreaks(e, env, wsAck, ackSpent, conv))
  {
    if env.body.conv.None? || env.body.number.None? {
      DeliverGrounded(place, e, Pending(env, wsAck));
      OneSeen(e.core, Pending(env, wsAck), conv);
    } else if env.body.conv.value !in e.orders {
      AnchorKeeps(place, e, env, wsAck, ackSpent, conv);
    } else if env.body.number.value < e.orders[env.body.conv.value].next {
      BelowKeeps(place, e, env, wsAck, ackSpent, conv);
    } else {
      ReceivedKeeps(place, e, env, wsAck, ackSpent, conv);
    }
  }

  /** An ordering step: it breaks the order if what it hands over would. */
  lemma CommitKeeps(place: Place, e: Engine, c: string, oc: Outcome, conv: string, breaks: bool)
    requires Grounded(place, e) && c in e.orders && Sane(place, c, e.orders[c].next, oc) && Settled(oc.state)
    requires c == conv && InStep(e.core, conv) ==>
      (Unbroken(Seen(DeliverAll(e.core, oc.out).log, conv)) <==> !breaks)
    ensures Proceeds(place, e, Commit(e, c, oc), conv, c == conv && breaks)
  {
    CommitGrounded(place, e, c, oc);
    ToldSeen(place, e.core, c, oc.out, oc.gap, conv);
    DeliverAllSafe(e.core, oc.out);
    if c == conv {
      CursorDue(place, e, c);
      if Unbroken(Seen(DeliverAll(e.core, oc.out).log, conv)) {
        StaysBroken(e.core, DeliverAll(e.core, oc.out), conv);
      }
    }
  }

  lemma TimerKeeps(place: Place, e: Engine, c: string, conv: string)
    requires Grounded(place, e) && c in e.orders && e.orders[c].timer
    ensures Proceeds(place, e, TimerStep(e, c), conv,
                     c == conv && !e.core.cfg.hasClient && Misfits(e.core, c, e.orders[c].buffer))
  {
    var o, client := e.orders[c], e.core.cfg.hasClient;
    TimerSane(place, c, o, client);
    TimerOk(o, client);
    if InStep(e.core, c) && !client { GivenUp(place, e.core, c, o.buffer); }
    CommitKeeps(place, e, c, TimerFired(o, client), conv, !client && Misfits(e.core, c, o.buffer));
  }

  lemma {:induction false} AckRowsSeen(place: Place, c: Core, rows: seq<Body>, seer: string)
    requires Remembered(place, c)
    ensures Remembered(place, AckRows(c, rows)) && Seen(AckRows(c, rows).log, seer) == Seen(c.log, seer)
  {
    forall conv ensures Seen(AckRows(c, rows).log, conv) == Seen(c.log, conv) { AckRowsUnseen(c, rows, conv); }
    AckRowsKnow(c, rows);
  }

  lemma {:induction false} AckRowsUnseen(c: Core, rows: seq<Body>, conv: string)
    ensures Seen(AckRows(c, rows).log, conv) == Seen(c.log, conv)
  {
    if rows != [] {
      var init, id := AckRows(c, rows[..|rows| - 1]), rows[|rows| - 1].id;
      AckRowsUnseen(c, rows[..|rows| - 1], conv);
      AckUnseen(init, id, conv);
    }
  }

  lemma {:induction false} AckRowsKnow(c: Core, rows: seq<Body>)
    ensures AckRows(c, rows).dedup == c.dedup
  {
    if rows != [] { AckRowsKnow(c, rows[..|rows| - 1]); }
  }

  lemma FillCoreKeeps(place: Place, e: Engine, c: string, result: FillResult, conv: string)
    requires Grounded(place, e) && c in e.orders && e.orders[c].fillFrom.Some?
    ensures var core := FillCore(e, c, result);
      && Grounded(place, e.(core := core)) && core.cfg == e.core.cfg
      && Seen(core.log, conv) == Seen(e.core.log, conv)
  {
    var o := e.orders[c];
    if e.core.cfg.ackOnReceipt && result.Fetched? {
      var rows := Merged(o.buffer, o.fillFrom.value, result.rows, false);
      AckRowsSafe(e.core, rows);
      AckRowsSeen(place, e.core, rows, conv);
      forall x | x in e.orders ensures Rooted(place, AckRows(e.core, rows), x, e.orders[x]) {
        RootedStays(place, e.core, AckRows(e.core, rows), x, e.orders[x]);
      }
    }
  }

  lemma MergedSeen(place: Place, c: Core, conv: string, o: OrderState)
    requires InStep(c, conv) && Remembered(place, c) && BufferFits(place, conv, o.buffer) && Keyed(o.buffer)
    requires CoreSafe(c) && o.next <= Due(c, conv)
    ensures var run := DrainRun(o);
      Unbroken(Seen(DeliverAll(c, MergedOutcome(o).out).log, conv)) <==>
      !(Repeats(c, conv, run.1) || Misfits(DeliverAll(c, run.1), conv, run.0.buffer))
  {
    var run := DrainRun(o);
    var c1 := DeliverAll(c, run.1);
    var rest := Values(run.0.buffer, Sorted(run.0.buffer.Keys));
    RunFits(place, conv, o);
    forall i | 0 <= i < |run.1| ensures SeqOf(run.1[i]) == o.next + i { RunAt(o, i); }
    RunSeen(place, c, conv, o.next, run.1);
    DeliverAllSplit(c, run.1, rest);
    DeliveriesRemembered(place, c, run.1);
    DeliverAllSafe(c, run.1);
    if InStep(c1, conv) {
      GivenUp(place, c1, conv, run.0.buffer);
    } else if Unbroken(Seen(DeliverAll(c1, rest).log, conv)) {
      DeliverAllSafe(c1, rest);
      StaysBroken(c1, DeliverAll(c1, rest), conv);
    }
  }

  lemma FillSeen(place: Place, e: Engine, conv: string, result: FillResult, core: Core)
    requires conv in e.orders && e.orders[conv].fillFrom.Some? && core == FillCore(e, conv, result)
    requires Grounded(place, e.(core := core)) && InStep(core, conv)
    requires result.Fetched? ==> RowsNamed(place, conv, result.rows)
    ensures var oc := FillReturned(e.orders[conv], result, !e.core.cfg.ackOnReceipt);
      Unbroken(Seen(DeliverAll(core, oc.out).log, conv)) <==> !FillBreaks(e, conv, result)
  {
    var o, wsAck := e.orders[conv], !e.core.cfg.ackOnReceipt;
    CursorDue(place, e.(core := core), conv);
    match result
    case FillError => GivenUp(place, core, conv, o.buffer);
    case Fetched(rows) =>
      MergedFits(place, conv, o, rows, wsAck);
      MergedSeen(place, core, conv, o.(fillFrom := None, buffer := Merge(o.buffer, o.fillFrom.value, rows, wsAck)));
  }

  lemma FillKeeps(place: Place, e: Engine, c: string, result: FillResult, conv: string)
    requires Grounded(place, e) && c in e.orders && e.orders[c].fillFrom.Some?
    requires result.Fetched? ==> RowsNamed(place, c, result.rows)
    ensures Proceeds(place, e, FillStep(e, c, result), conv, c == conv && FillBreaks(e, c, result))
  {
    var o, wsAck, core := e.orders[c], !e.core.cfg.ackOnReceipt, FillCore(e, c, result);
    FillCoreKeeps(place, e, c, result, conv);
    FillOk(o, result, wsAck);
    FillSane(place, c, o, result, wsAck);
    if c == conv && InStep(core, conv) { FillSeen(place, e, conv, result, core); }
    CommitKeeps(place, e.(core := core), c, FillReturned(o, result, wsAck), conv, FillBreaks(e, c, result));
  }

  // ----- Flushes -----

  lemma FlushOneKeeps(place: Place, e: Engine, c: string, reason: GapReason, conv: string)
    requires Grounded(place, e)
    ensures FlushOne(e, c, reason).orders == e.orders
    ensures Proceeds(place, e, FlushOne(e, c, reason), conv,
                     c == conv && c in e.orders && Misfits(e.core, c, e.orders[c].buffer))
  {
    if c in e.orders {
      var o, oc := e.orders[c], Flush(e.orders[c], reason);
      var e' := FlushOne(e, c, reason);
      ValuesFit(place, c, o.buffer);
      ToldSeen(place, e.core, c, oc.out, oc.gap, conv);
      forall x | x in e.orders ensures Rooted(place, e'.core, x, e.orders[x]) {
        RootedStays(place, e.core, e'.core, x, e.orders[x]);
      }
      CursorDue(place, e, c);
      if c == conv {
        if InStep(e.core, conv) {
          GivenUp(place, e.core, conv, o.buffer);
        } else if Unbroken(Seen(e'.core.log, conv)) {
          StaysBroken(e.core, e'.core, conv);
        }
      }
    }
  }

  lemma {:induction false} FlushKeeps(place: Place, e: Engine, order: seq<string>, reason: GapReason, conv: string)
    requires Grounded(place, e)
    ensures FlushAll(e, order, reason).orders == e.orders
    ensures Proceeds(place, e, FlushAll(e, order, reason), conv, FlushBreaks(e, order, reason, conv))
  {
    if order != [] {
      var n := |order| - 1;
      FlushKeeps(place, e, order[..n], reason, conv);
      FlushOneKeeps(place, FlushAll(e, order[..n], reason), order[n], reason, conv);
    }
  }

  // ----- Runs -----

  lemma ReceiptKeeps(place: Place, e: Engine, body: Body, conv: string)
    requires Grounded(place, e) && Named(place, body) && e.core.connected && !e.core.disposed
    ensures Proceeds(place, e, Receipt(e, body), conv, Breaks(e, FrameIn(body), conv))
  {
    var env := Envelope(body, None);
    if e.core.cfg.ackOnReceipt {
      var e1 := e.(core := SendAckIf(e.core, body.id, true));
      AckKeeps(place, e, body.id, conv);
      RouteKeeps(place, e1, env, false, true, conv);
    } else {
      RouteKeeps(place, e, env, true, false, conv);
    }
  }

  lemma AckKeeps(place: Place, e: Engine, id: Option<string>, conv: string)
    requires Grounded(place, e) && e.core.cfg.ackOnReceipt
    ensures var core := SendAckIf(e.core, id, true);
      Grounded(place, e.(core := core)) && Seen(core.log, conv) == Seen(e.core.log, conv)
  {
    var core := SendAckIf(e.core, id, true);
    AckSafe(e.core, id, true);
    forall c ensures Seen(core.log, c) == Seen(e.core.log, c) { AckUnseen(e.core, id, c); }
  }

  lemma ClosedKeeps(place: Place, e: Engine, order: seq<string>, conv: string)
    requires Grounded(place, e)
    ensures Proceeds(place, e, Closed(e, order), conv, ClosedBreaks(e, order, conv))
  {
    var e1 := e.(core := e.core.(connected := false, ackNegotiated := false));
    assert Grounded(place, e1);
    if e.core.cfg.ackOnReceipt {
      FlushKeeps(place, e1, order, ConnectionClosed, conv);
    }
  }

  lemma DisposedKeeps(place: Place, e: Engine, order: seq<string>, conv: string)
    requires Grounded(place, e)
    ensures Proceeds(place, e, Disposed(e, order), conv, DisposedBreaks(e, order, conv))
  {
    var e1 := e.(core := e.core.(disposed := true));
    assert Grounded(place, e1);
    FlushKeeps(place, e1, order, GapFillUnavailable, conv);
  }

  lemma QuietKeeps(place: Place, e: Engine, e': Engine, conv: string)
    requires Grounded(place, e) && Safe(e') && e'.orders == e.orders
    requires e'.core.log == e.core.log && e'.core.dedup == e.core.dedup
    ensures Proceeds(place, e, e', conv, false)
  {
    forall c | c in e'.orders ensures Rooted(place, e'.core, c, e'.orders[c]) {
      assert Rooted(place, e.core, c, e.orders[c]);
    }
  }

  lemma {:induction false} NextKeeps(place: Place, e: Engine, i: Input, conv: string)
    requires Grounded(place, e) && NamedInput(place, i)
    ensures Proceeds(place, e, Delivery.Next(e, i), conv, Breaks(e, i, conv))
  {
    if Enabled(e, i) {
      match i
      case FrameIn(body) => ReceiptKeeps(place, e, body, conv);
      case DrainRow(env) => RouteKeeps(place, e, env, false, false, conv);
      case GapTimer(c) => TimerKeeps(place, e, c, conv);
      case FillBack(c, _, result) => FillKeeps(place, e, c, result, conv);
      case SocketClosed(order) => ClosedKeeps(place, e, order, conv);
      case Stopped(order) => DisposedKeeps(place, e, order, conv);
      case DedupLookup(id) => RefreshGrounded(place, e, id);
      case _ =>
        NextSafe(e, i);
        QuietKeeps(place, e, Delivery.Next(e, i), conv);
    }
  }

  /** No step of the run broke the order. */
  ghost predicate NoneBreaks(e: Engine, inputs: seq<Input>, conv: string) {
    inputs == [] ||
    var n := |inputs| - 1;
    NoneBreaks(e, inputs[..n], conv) && !Breaks(Run(e, inputs[..n]), inputs[n], conv)
  }

  ghost predicate AllNamed(place: Place, inputs: seq<Input>) {
    forall i :: 0 <= i < |inputs| ==> NamedInput(place, inputs[i])
  }

  lemma {:induction false} RunGrounded(place: Place, cfg: Config, inputs: seq<Input>)
    requires AllNamed(place, inputs)
    ensures Grounded(place, Run(Start(cfg), inputs))
  {
    if inputs != [] {
      var n := |inputs| - 1;
      RunGrounded(place, cfg, inputs[..n]);
      NextKeeps(place, Run(Start(cfg), inputs[..n]), inputs[n], "");
    }
  }

  /** Over any run, in either ack mode: the handlers of a conversation see its seqs
      in order, without a gap or a repeat, exactly when no step broke the order. */
  lemma {:induction false} SeenInOrderExactly(place: Place, cfg: Config, inputs: seq<Input>, conv: string)
    requires AllNamed(place, inputs)
    ensures Unbroken(Seen(Run(Start(cfg), inputs).core.log, conv)) <==> NoneBreaks(Start(cfg), inputs, conv)
  {
    if inputs != [] {
      var n := |inputs| - 1;
      SeenInOrderExactly(place, cfg, inputs[..n], conv);
      RunGrounded(place, cfg, inputs[..n]);
      NextKeeps(place, Run(Start(cfg), inputs[..n]), inputs[n], conv);
    }
  }

  // ----- Where it does not hold -----

  function Message(s: nat): Body {
    Body(None, Some("c"), Some(s))
  }

  function Live(s: nat): Pending {
    Pending(Envelope(Message(s), None), true)
  }

  ghost function Came(e: Engine, s: nat): Engine {
    Delivery.Next(e, FrameIn(Message(s)))
  }

  lemma HelloRun(cfg: Config, ack: bool)
    ensures Run(Start(cfg), [HelloOk(ack)]) ==
            Start(cfg).(core := Start(cfg).core.(connected := true, ackNegotiated := ack))
  {
    RunMore(Start(cfg), [], HelloOk(ack));
    assert [] + [HelloOk(ack)] == [HelloOk(ack)];
  }

  /** Acking on receipt, a live frame below the anchor is seen after it. */
  lemma {:induction false} LateIsSeen(cfg: Config, ack: bool)
    requires cfg.ackOnReceipt
    ensures var frames := [FrameIn(Message(5)), FrameIn(Message(4))];
      Seen(Run(Start(cfg), [HelloOk(ack)] + frames).core.log, "c") == [5, 4]
  {
    HelloRun(cfg, ack);
    RunTwo(Start(cfg), [HelloOk(ack)], FrameIn(Message(5)), FrameIn(Message(4)));
    LateLive(Run(Start(cfg), [HelloOk(ack)]));
  }

  lemma RunTwo(e: Engine, before: seq<Input>, a: Input, b: Input)
    ensures Run(e, before + [a, b]) == Delivery.Next(Delivery.Next(Run(e, before), a), b)
  {
    var inputs := before + [a, b];
    assert inputs[..|inputs| - 1] == before + [a] && inputs[|inputs| - 1] == b;
    RunMore(e, before, a);
  }

  ghost predicate Receiving(e: Engine) {
    e.core.connected && !e.core.disposed && e.core.cfg.ackOnReceipt
  }

  function Spent(s: nat): Pending {
    Pending(Envelope(Message(s), None), false)
  }

  lemma LateLive(e: Engine)
    requires Receiving(e) && "c" !in e.orders
    ensures Seen(Came(Came(e, 5), 4).core.log, "c") == Seen(e.core.log, "c") + [5, 4]
  {
    AnchoredSpent(e, 5);
    BelowSpent(Came(e, 5), 4);
    assert Seen(e.core.log, "c") + [5] + [4] == Seen(e.core.log, "c") + [5, 4];
  }

  lemma AnchoredSpent(e: Engine, s: nat)
    requires Receiving(e) && "c" !in e.orders
    ensures var e' := Came(e, s);
      && Receiving(e') && "c" in e'.orders && e'.orders["c"].next == s + 1
      && Seen(e'.core.log, "c") == Seen(e.core.log, "c") + [s]
  {
    assert Came(e, s) == AnchoredBy(e, Spent(s), "c");
    DeliverSeen(e.core, Spent(s), "c");
  }

  lemma BelowSpent(e: Engine, s: nat)
    requires Receiving(e) && "c" in e.orders && s < e.orders["c"].next
    ensures Seen(Came(e, s).core.log, "c") == Seen(e.core.log, "c") + [s]
  {
    assert Came(e, s).core == Deliver(e.core, Spent(s));
    DeliverSeen(e.core, Spent(s), "c");
  }

  /** Acking after dispatch, the second frame leaves the state idle, 4 anchors a new
      one, and 3 is dropped below it. */
  lemma {:induction false} SkipIsSeen(cfg: Config, ack: bool)
    requires !cfg.ackOnReceipt
    ensures var first, second := [FrameIn(Message(1)), FrameIn(Message(2))], [FrameIn(Message(4)), FrameIn(Message(3))];
      Seen(Run(Start(cfg), [HelloOk(ack)] + first + second).core.log, "c") == [1, 2, 4]
  {
    var first, second := [FrameIn(Message(1)), FrameIn(Message(2))], [FrameIn(Message(4)), FrameIn(Message(3))];
    HelloRun(cfg, ack);
    RunTwo(Start(cfg), [HelloOk(ack)], first[0], first[1]);
    RunTwo(Start(cfg), [HelloOk(ack)] + first, second[0], second[1]);
    SkippedLive(Run(Start(cfg), [HelloOk(ack)]));
  }

  lemma SkippedLive(e: Engine)
    requires Ready(e) && "c" !in e.orders
    ensures Seen(Came(Came(Came(Came(e, 1), 2), 4), 3).core.log, "c") == Seen(e.core.log, "c") + [1, 2, 4]
  {
    var e1 := AnchoredLive(e, 1);
    var e2 := ReleasedLive(e1, 2);
    var e4 := AnchoredLive(e2, 4);
    DroppedLive(e4, 3);
  }

  lemma DroppedLive(e: Engine, s: nat)
    requires Ready(e) && "c" in e.orders && s < e.orders["c"].next
    ensures Came(e, s) == e
  {
  }

  ghost predicate Ready(e: Engine) {
    e.core.connected && !e.core.disposed && !e.core.cfg.ackOnReceipt
  }

  lemma AnchoredLive(e: Engine, s: nat) returns (e': Engine)
    requires Ready(e) && "c" !in e.orders
    ensures e' == Came(e, s) && Ready(e')
    ensures e'.orders == e.orders["c" := Anchored(s, e.lives)]
    ensures Seen(e'.core.log, "c") == Seen(e.core.log, "c") + [s]
  {
    e' := AnchoredBy(e, Live(s), "c");
    DeliverSeen(e.core, Live(s), "c");
  }

  /** The expected frame, with nothing parked. */
  lemma ReleasedLive(e: Engine, s: nat) returns (e': Engine)
    requires Ready(e) && "c" in e.orders && Idle(e.orders["c"]) && e.orders["c"].next == s
    ensures e' == Came(e, s) && Ready(e') && "c" !in e'.orders
    ensures Seen(e'.core.log, "c") == Seen(e.core.log, "c") + [s]
  {
    e' := Came(e, s);
    Conversations.InOrderIdles(e.orders["c"], Live(s));
    Conversations.OneDelivery(e.core, Live(s));
    assert e' == e.(core := Deliver(e.core, Live(s)), orders := e.orders - {"c"});
    DeliverSeen(e.core, Live(s), "c");
  }

  lemma RunMore(e: Engine, inputs: seq<Input>, i: Input)
    ensures Run(e, inputs + [i]) == Delivery.Next(Run(e, inputs), i)
  {
    assert (inputs + [i])[..|inputs|] == inputs;
  }
}
