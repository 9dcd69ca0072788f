/** What the ordering layer keeps, step by step and over a whole life of one
    order state. */
module OrderingLaws {
  import opened Wrappers
  import opened Envelopes
  import opened Ordering

  /** Every parked frame sits under its own seq. */
  ghost predicate Keyed(buffer: map<nat, Pending>) {
    forall k :: k in buffer ==> buffer[k].env.body.number == Some(k)
  }

  /** What holds of a conversation between steps. */
  ghost predicate Settled(o: OrderState) {
    && Keyed(o.buffer)
    && (forall k :: k in o.buffer ==> o.next < k)
    && |o.buffer| <= 500
    && (o.buffer != map[] ==> o.timer || o.fillFrom.Some?)
    && (o.timer ==> o.buffer != map[])
    && (o.fillFrom.Some? ==> o.fillFrom.value <= o.next)
  }

  ghost predicate Contiguous(from: nat, out: seq<Pending>) {
    forall i :: 0 <= i < |out| ==> SeqOf(out[i]) == from + i
  }

  /** Hand-overs in increasing seq order from the cursor on, the cursor right
      behind the last one, and no seq skipped without a gap notice. */
  ghost predicate Orderly(from: nat, oc: Outcome) {
    && (forall i, j :: 0 <= i < j < |oc.out| ==> SeqOf(oc.out[i]) < SeqOf(oc.out[j]))
    && (forall i :: 0 <= i < |oc.out| ==> from <= SeqOf(oc.out[i]))
    && oc.state.next == (if oc.out == [] then from else SeqOf(oc.out[|oc.out| - 1]) + 1)
    && (oc.gap.None? ==> Contiguous(from, oc.out))
  }

  /** Nothing parked is lost: each parked frame is handed over or stays parked. */
  ghost predicate Keeps(buffer: map<nat, Pending>, oc: Outcome) {
    forall k :: k in buffer ==>
      buffer[k] in oc.out || (k in oc.state.buffer && oc.state.buffer[k] == buffer[k])
  }

  // ----- The pieces -----

  lemma DrainRunKeeps(o: OrderState, k: nat)
    requires k in o.buffer
    ensures var run := DrainRun(o);
      o.buffer[k] in run.1 || (k in run.0.buffer && run.0.buffer[k] == o.buffer[k])
  {
    var run := DrainRun(o);
    if k !in run.0.buffer { assert run.1[k - o.next] == o.buffer[k]; }
  }

  lemma SmallerMap(a: map<nat, Pending>, b: map<nat, Pending>)
    requires a.Keys <= b.Keys
    ensures |a| <= |b|
  {
    assert b.Keys == a.Keys + (b.Keys - a.Keys);
    assert |a| == |a.Keys| && |b| == |b.Keys|;
  }

  lemma ValueAt(buffer: map<nat, Pending>, i: nat)
    requires Keyed(buffer) && i < |buffer.Keys|
    ensures var keys := Sorted(buffer.Keys); keys[i] in buffer && SeqOf(Values(buffer, keys)[i]) == keys[i]
  {
    var keys := Sorted(buffer.Keys);
    assert keys[i] in keys;
    assert Values(buffer, keys)[i] == buffer[keys[i]];
  }

  lemma IndexIn(keys: seq<nat>, k: nat) returns (i: nat)
    requires k in keys && Increasing(keys)
    ensures i < |keys| && keys[i] == k && k <= keys[|keys| - 1]
  {
    i :| 0 <= i < |keys| && keys[i] == k;
  }

  lemma ValueOf(buffer: map<nat, Pending>, k: nat)
    requires k in buffer
    ensures var keys := Sorted(buffer.Keys);
      buffer[k] in Values(buffer, keys) && keys != [] && k <= keys[|keys| - 1]
  {
    var keys := Sorted(buffer.Keys);
    assert k in keys;
    var i := IndexIn(keys, k);
    assert Values(buffer, keys)[i] == buffer[k];
  }

  /** Giving up a gap, from any state: all parked frames go, nothing stays, and
      the cursor never moves back. */
  lemma ResolveFacts(o: OrderState, buffered: Option<nat>, recovered: bool, reason: GapReason)
    ensures var oc := Resolve(o, buffered, recovered, reason);
      && Keeps(o.buffer, oc) && oc.state.next >= o.next
      && oc.gap.Some? && oc.gap.value.recovered == recovered
  {
    var oc := Resolve(o, buffered, recovered, reason);
    forall k | k in o.buffer ensures o.buffer[k] in oc.out { ValueOf(o.buffer, k); }
  }

  lemma ResolveOrderly(o: OrderState, buffered: Option<nat>, recovered: bool, reason: GapReason)
    requires Keyed(o.buffer) && forall k :: k in o.buffer ==> o.next <= k
    ensures Orderly(o.next, Resolve(o, buffered, recovered, reason))
  {
    var keys, oc := Sorted(o.buffer.Keys), Resolve(o, buffered, recovered, reason);
    forall i | 0 <= i < |oc.out| ensures SeqOf(oc.out[i]) == keys[i] && o.next <= keys[i] {
      ValueAt(o.buffer, i);
    }
  }

  lemma {:induction false} MergeFacts(buffer: map<nat, Pending>, from: nat, rows: seq<Body>, wsAck: bool)
    ensures var b := Merge(buffer, from, rows, wsAck);
      && (forall k :: k in buffer ==> k in b && b[k] == buffer[k])
      && (forall k :: k in b && k !in buffer ==>
            from <= k && b[k].env.body in Merged(buffer, from, rows, wsAck)
            && b[k].env.body in rows && b[k].env.body.number == Some(k)
            && b[k].env.tag.None? && b[k].wsAck == wsAck)
      && (forall row :: row in rows && row.number.Some? && from <= row.number.value ==> row.number.value in b)
      && (forall row :: row in Merged(buffer, from, rows, wsAck) ==>
            row in rows && row.number.Some? && row.number.value in b
            && b[row.number.value] == Pending(Envelope(row, None), wsAck))
  {
    if rows != [] {
      var init, row := rows[..|rows| - 1], rows[|rows| - 1];
      assert rows == init + [row];
      MergeFacts(buffer, from, init, wsAck);
    }
  }

  // ----- One step -----

  lemma InOrderOut(o: OrderState, p: Pending, i: nat)
    requires Keyed(o.buffer) && p.env.body.number == Some(o.next) && i < |InOrder(o, p).out|
    ensures SeqOf(InOrder(o, p).out[i]) == o.next + i
  {
    if i > 0 {
      assert o.next + i in o.buffer.Keys;
      assert InOrder(o, p).out[i] == DrainRun(o.(next := o.next + 1)).1[i - 1] == o.buffer[o.next + i];
    }
  }

  lemma InOrderKeeps(o: OrderState, p: Pending)
    ensures Keeps(o.buffer, InOrder(o, p)) && p in InOrder(o, p).out
  {
    var oc := InOrder(o, p);
    assert oc.out[0] == p;
    forall k | k in o.buffer
      ensures o.buffer[k] in oc.out || (k in oc.state.buffer && oc.state.buffer[k] == o.buffer[k])
    {
      DrainRunKeeps(o.(next := o.next + 1), k);
    }
  }

  lemma InOrderOk(o: OrderState, p: Pending)
    requires Settled(o) && p.env.body.number == Some(o.next)
    ensures Settled(InOrder(o, p).state) && Orderly(o.next, InOrder(o, p))
  {
    var oc := InOrder(o, p);
    assert Orderly(o.next, oc) by {
      forall i | 0 <= i < |oc.out| ensures SeqOf(oc.out[i]) == o.next + i { InOrderOut(o, p, i); }
    }
    SmallerMap(oc.state.buffer, o.buffer);
    assert oc.state.next !in o.buffer.Keys;
  }

  lemma {:induction false} ParkOk(o: OrderState, s: nat, p: Pending)
    requires Settled(o) && p.env.body.number == Some(s) && s > o.next
    ensures Settled(Park(o, s, p).state) && Orderly(o.next, Park(o, s, p)) && Keeps(o.buffer[s := p], Park(o, s, p))
    ensures Park(o, s, p).gap.Some? <==> |o.buffer[s := p]| > 500
  {
    var o1 := o.(buffer := o.buffer[s := p]);
    if |o1.buffer| > 500 {
      assert Park(o, s, p) == Resolve(o1, LeastParked(o1), false, BufferOverflow);
      ResolveFacts(o1, LeastParked(o1), false, BufferOverflow);
      ResolveOrderly(o1, LeastParked(o1), false, BufferOverflow);
    } else {
    }
  }

  /** Any frame at or above the cursor. */
  lemma ReceiveOk(o: OrderState, p: Pending)
    requires Settled(o) && p.env.body.number.Some? && SeqOf(p) >= o.next
    ensures var oc := Receive(o, SeqOf(p), p);
      Settled(oc.state) && Orderly(o.next, oc) && oc.state.fillFrom == o.fillFrom
  {
    if SeqOf(p) == o.next { InOrderOk(o, p); } else { ParkOk(o, SeqOf(p), p); }
  }

  lemma {:induction false} TimerOk(o: OrderState, hasClient: bool)
    requires Settled(o) && o.timer
    ensures var oc := TimerFired(o, hasClient);
      && Settled(oc.state) && Orderly(o.next, oc) && Keeps(o.buffer, oc)
      && oc.state.next >= o.next && oc.state.life == o.life
      && (oc.gap.Some? <==> !hasClient)
      && (hasClient ==> oc == Outcome(o.(timer := false, fillFrom := Some(o.fillFrom.GetOr(o.next))), [], None))
  {
    var o1 := o.(timer := false);
    if !hasClient {
      ResolveFacts(o1, LeastParked(o1), false, GapFillUnavailable);
      ResolveOrderly(o1, LeastParked(o1), false, GapFillUnavailable);
    }
  }

  /** A fill that comes back late: fetched rows below the cursor may enter the
      buffer, yet the cursor does not move back and the step leaves nothing parked. */
  lemma {:induction false} FillOk(o: OrderState, result: FillResult, wsAck: bool)
    requires Settled(o) && o.fillFrom.Some?
    ensures var oc := FillReturned(o, result, wsAck);
      && Settled(oc.state) && Idle(oc.state) && Keeps(o.buffer, oc)
      && oc.state.next >= o.next && oc.state.life == o.life && oc.gap.Some?
      && oc.gap.value.reason == (if oc.gap.value.recovered then GapFilled else GapFillFailed)
      && (result.FillError? ==> !oc.gap.value.recovered)
    ensures result.Fetched? ==>
              Keeps(Merge(o.buffer, o.fillFrom.value, result.rows, wsAck), FillReturned(o, result, wsAck))
  {
    var o1 := o.(fillFrom := None);
    match result
    case FillError =>
      ResolveFacts(o1, LeastParked(o1), false, GapFillFailed);
    case Fetched(rows) =>
      var from := o.fillFrom.value;
      MergeFacts(o.buffer, from, rows, wsAck);
      var o2 := o1.(buffer := Merge(o.buffer, from, rows, wsAck));
      MergedFill(o2);
      assert FillReturned(o, result, wsAck) == MergedOutcome(o2);
  }

  lemma MergedFill(o: OrderState)
    requires Keyed(o.buffer)
    ensures var oc := MergedOutcome(o);
      && oc.state.buffer == map[] && !oc.state.timer && oc.state.fillFrom == o.fillFrom
      && Keeps(o.buffer, oc) && oc.state.next >= o.next && oc.state.life == o.life && oc.gap.Some?
      && (oc.gap.value.recovered <==> o.next in o.buffer)
      && oc.gap.value.reason == (if o.next in o.buffer then GapFilled else GapFillFailed)
  {
    var run, oc := DrainRun(o), MergedOutcome(o);
    assert run.1 != [] <==> o.next in o.buffer.Keys;
    ResolveFacts(run.0, None, true, GapFilled);
    ResolveFacts(run.0, LeastParked(run.0), false, GapFillFailed);
    forall k | k in o.buffer ensures o.buffer[k] in oc.out {
      DrainRunKeeps(o, k);
    }
  }

  /** The close flush hands over everything, in increasing order above the
      cursor, with a notice whenever something was parked. */
  lemma {:induction false} FlushOk(o: OrderState, reason: GapReason)
    requires Settled(o)
    ensures var oc := Flush(o, reason);
      && Keeps(o.buffer, oc) && oc.state.buffer == map[]
      && (forall i, j :: 0 <= i < j < |oc.out| ==> SeqOf(oc.out[i]) < SeqOf(oc.out[j]))
      && (forall i :: 0 <= i < |oc.out| ==> o.next < SeqOf(oc.out[i]))
      && (oc.gap.Some? <==> oc.out != [])
  {
    var oc, keys := Flush(o, reason), Sorted(o.buffer.Keys);
    forall k | k in o.buffer ensures o.buffer[k] in oc.out { ValueOf(o.buffer, k); }
    forall i | 0 <= i < |oc.out| ensures SeqOf(oc.out[i]) == keys[i] && o.next < keys[i] {
      ValueAt(o.buffer, i);
    }
  }

  // ----- What a gap notice says -----

  /** The cursor remembered for the notice is not above the cursor. */
  predicate GapStartOk(o: OrderState) {
    o.gapStarted.Some? ==> o.gapStarted.value <= o.next
  }

  /** A notice names a real gap: from the cursor when the gap was first seen, where
      that is known, and at most the cursor now, up to the least seq parked. */
  ghost predicate NamesGap(notice: GapNotice, o: OrderState, parked: set<nat>, reason: GapReason) {
    && notice.expected <= o.next && !notice.recovered && notice.reason == reason
    && (o.gapStarted.Some? ==> notice.expected == o.gapStarted.value)
    && (o.gapStarted.None? ==> notice.expected == o.next)
    && notice.buffered.Some? && IsLeast(notice.buffered.value, parked) && o.next < notice.buffered.value
  }

  /** Frames, timers and flushes report just such gaps. */
  lemma {:induction false} NoticesNameGaps(o: OrderState, s: nat, p: Pending, hasClient: bool, reason: GapReason)
    requires Settled(o) && GapStartOk(o)
    ensures var oc := Receive(o, s, p);
      GapStartOk(oc.state) && (oc.gap.Some? ==> NamesGap(oc.gap.value, o, o.buffer.Keys + {s}, BufferOverflow))
    ensures var oc := TimerFired(o, hasClient);
      GapStartOk(oc.state) && (oc.gap.Some? ==> NamesGap(oc.gap.value, o, o.buffer.Keys, GapFillUnavailable))
    ensures var oc := Flush(o, reason);
      oc.gap.Some? ==> NamesGap(oc.gap.value, o, o.buffer.Keys, reason)
  {
    ParkNotice(o, s, p);
  }

  /** The first frame ahead of the cursor marks where the gap starts, and no frame
      that leaves it open moves the mark. */
  lemma {:induction false} GapMarked(o: OrderState, s: nat, p: Pending)
    requires Settled(o) && s > o.next && Park(o, s, p).gap.None?
    ensures var started := Park(o, s, p).state.gapStarted;
      started == if o.timer then o.gapStarted else Some(o.next)
  {
  }

  lemma ParkNotice(o: OrderState, s: nat, p: Pending)
    requires Settled(o) && GapStartOk(o)
    ensures var oc := Receive(o, s, p);
      GapStartOk(oc.state) && (oc.gap.Some? ==> NamesGap(oc.gap.value, o, o.buffer.Keys + {s}, BufferOverflow))
  {
    if s > o.next { assert o.buffer[s := p].Keys == o.buffer.Keys + {s}; }
  }
}
