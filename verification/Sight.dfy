/** What the handlers see of one conversation (src/agentchatme/_realtime.py:1656-1659),
    over runs of the whole engine, in both ack modes: the dedup set absorbs what was
    dispatched before, and everything else that reaches the choke point is seen. */
module Sight {
  import opened Wrappers
  import opened Envelopes
  import opened Ordering
  import opened OrderingLaws
  import opened Lives
  import opened Delivery
  import opened DeliveryLaws

  // ----- What is seen -----

  predicate OfConv(body: Body, conv: string) {
    body.conv == Some(conv) && body.number.Some?
  }

  /** The seqs of a conversation in the order its handlers were called with them. */
  function Seen(log: Log, conv: string): seq<nat> {
    if log == [] then []
    else
      var init, ev := Seen(log[..|log| - 1], conv), log[|log| - 1];
      if ev.Handed? && OfConv(ev.body, conv) then init + [ev.body.number.value] else init
  }

  ghost predicate Unbroken(seen: seq<nat>) {
    forall i :: 0 <= i < |seen| ==> seen[i] == seen[0] + i
  }

  function NextOf(seen: seq<nat>): nat {
    if seen == [] then 0 else seen[|seen| - 1] + 1
  }

  /** The seq the handlers should see next. */
  function Due(c: Core, conv: string): nat {
    NextOf(Seen(c.log, conv))
  }

  // ----- Where seqs come from -----

  type Place = string -> (Option<string>, Option<nat>)

  /** A message id determines the conversation and the seq. */
  ghost predicate Named(place: Place, body: Body) {
    body.id.Some? ==> place(body.id.value) == (body.conv, body.number)
  }

  /** A history endpoint answers with rows of the conversation asked for. */
  ghost predicate NamedInput(place: Place, i: Input) {
    match i
    case FrameIn(body) => Named(place, body)
    case DrainRow(env) => Named(place, env.body)
    case FillBack(conv, _, result) => result.Fetched? ==> RowsNamed(place, conv, result.rows)
    case _ => true
  }

  ghost predicate RowsNamed(place: Place, conv: string, rows: seq<Body>) {
    forall row :: row in rows && row.number.Some? ==> row.conv == Some(conv) && Named(place, row)
  }

  ghost predicate Fits(place: Place, conv: string, p: Pending) {
    OfConv(p.env.body, conv) && Named(place, p.env.body)
  }

  ghost predicate AllFit(place: Place, conv: string, ps: seq<Pending>) {
    forall p :: p in ps ==> Fits(place, conv, p)
  }

  ghost predicate BufferFits(place: Place, conv: string, buffer: map<nat, Pending>) {
    forall k :: k in buffer ==> Fits(place, conv, buffer[k])
  }

  // ----- One delivery -----

  /** An id is remembered only once its seq was seen. */
  ghost predicate Remembered(place: Place, c: Core) {
    forall id, conv, n: nat :: id in c.dedup && place(id) == (Some(conv), Some(n)) ==> n in Seen(c.log, conv)
  }

  lemma SeenMore(log: Log, ev: Event, conv: string)
    ensures Seen(log + [ev], conv) ==
            Seen(log, conv) + if ev.Handed? && OfConv(ev.body, conv) then [ev.body.number.value] else []
  {
    assert (log + [ev])[..|log|] == log;
  }

  lemma {:induction false} SeenGrows(log: Log, more: Log, conv: string)
    requires log <= more
    ensures Seen(log, conv) <= Seen(more, conv)
  {
    if log != more {
      SeenGrows(log, more[..|more| - 1], conv);
    }
  }

  lemma SettleUnseen(c: Core, id: Option<string>, wanted: bool, env: Envelope, ok: bool, conv: string)
    ensures Seen(Settle(SendAckIf(c, id, wanted), env, ok).log, conv) == Seen(c.log, conv)
  {
    if wanted && id.Some? { SeenMore(c.log, Acked(id.value), conv); }
  }

  lemma AckUnseen(c: Core, id: Option<string>, conv: string)
    ensures Seen(SendAckIf(c, id, true).log, conv) == Seen(c.log, conv)
  {
    if id.Some? { SeenMore(c.log, Acked(id.value), conv); }
  }

  /** The handlers see a frame unless its id is known. */
  lemma DeliverSeen(c: Core, p: Pending, conv: string)
    ensures Seen(Deliver(c, p).log, conv) ==
            Seen(c.log, conv) + if !Known(c, p.env.body.id) && OfConv(p.env.body, conv) then [SeqOf(p)] else []
  {
    var id, c1 := p.env.body.id, Dispatch(c, p.env.body);
    if Known(c, id) {
      SettleUnseen(Refresh(c, id.value), id, p.wsAck, p.env, true, conv);
    } else {
      SeenMore(c.log, Handed(p.env.body, c.cfg.settles(|c.log|)), conv);
      SettleUnseen(c1, None, false, p.env, false, conv);
      SettleUnseen(Remember(c1, id), id, p.wsAck, p.env, true, conv);
    }
  }

  lemma DeliverKnows(c: Core, p: Pending)
    ensures forall x :: x in Deliver(c, p).dedup ==> x in c.dedup || p.env.body.id == Some(x)
    ensures Known(c, p.env.body.id) ==> forall x :: x in Deliver(c, p).dedup <==> x in c.dedup
    ensures Known(c, p.env.body.id) ==> Deliver(c, p).cfg == c.cfg
  {
    var id := p.env.body.id;
    if id.Some? {
      forall x ensures x in Refresh(c, id.value).dedup <==> x in c.dedup { HitMember(c.dedup, id.value, x); }
      forall x | x in Remember(c, id).dedup ensures x in c.dedup || x == id.value {
        AddMember(c.cfg.dedupCapacity, c.dedup, id.value, x);
      }
    }
  }

  // ----- Frames one after the other -----

  /** The seqs of the frames whose id is not remembered. */
  function Unknown(c: Core, ps: seq<Pending>): set<nat> {
    set p | p in ps && !Known(c, p.env.body.id) :: SeqOf(p)
  }

  /** From `next` on, and without a hole. */
  ghost predicate Consecutive(next: nat, seqs: set<nat>) {
    && (forall k :: k in seqs ==> next <= k)
    && (forall k, s :: k in seqs && next <= s <= k ==> s in seqs)
  }

  lemma {:induction false} DeliveriesKnow(c: Core, ps: seq<Pending>)
    ensures forall x :: x in DeliverAll(c, ps).dedup ==> x in c.dedup || exists p :: p in ps && p.env.body.id == Some(x)
    ensures Unknown(c, ps) == {} ==> forall x :: x in DeliverAll(c, ps).dedup <==> x in c.dedup
  {
    if ps != [] {
      var init, p := ps[..|ps| - 1], ps[|ps| - 1];
      assert ps == init + [p];
      UnknownMore(c, init, p);
      DeliveriesKnow(c, init);
      DeliverKnows(DeliverAll(c, init), p);
    }
  }

  lemma UnknownMore(c: Core, init: seq<Pending>, p: Pending)
    ensures Unknown(c, init + [p]) == Unknown(c, init) + if Known(c, p.env.body.id) then {} else {SeqOf(p)}
  {
  }

  lemma {:induction false} DeliveriesRemembered(place: Place, c: Core, ps: seq<Pending>)
    requires Remembered(place, c) && forall p :: p in ps ==> Named(place, p.env.body)
    ensures var c' := DeliverAll(c, ps);
      && Remembered(place, c')
      && (forall conv :: Seen(c.log, conv) <= Seen(c'.log, conv))
      && (forall p, conv :: p in ps && OfConv(p.env.body, conv) ==> SeqOf(p) in Seen(c'.log, conv))
  {
    if ps != [] {
      var init, p := ps[..|ps| - 1], ps[|ps| - 1];
      assert ps == init + [p];
      DeliveriesRemembered(place, c, init);
      DeliveryRemembered(place, DeliverAll(c, init), p);
    }
  }

  /** Whatever was delivered has been seen, now or before. */
  lemma DeliveryRemembered(place: Place, c: Core, p: Pending)
    requires Remembered(place, c) && Named(place, p.env.body)
    ensures var c' := Deliver(c, p);
      && Remembered(place, c')
      && (forall conv :: Seen(c.log, conv) <= Seen(c'.log, conv))
      && (forall conv :: OfConv(p.env.body, conv) ==> SeqOf(p) in Seen(c'.log, conv))
  {
    DeliverKnows(c, p);
    forall conv
      ensures Seen(c.log, conv) <= Seen(Deliver(c, p).log, conv)
      ensures OfConv(p.env.body, conv) ==> SeqOf(p) in Seen(Deliver(c, p).log, conv)
    {
      DeliverSeen(c, p, conv);
    }
  }

  lemma {:induction false} ElsewhereUnseen(c: Core, ps: seq<Pending>, conv: string)
    requires forall p :: p in ps ==> !OfConv(p.env.body, conv)
    ensures Seen(DeliverAll(c, ps).log, conv) == Seen(c.log, conv)
  {
    if ps != [] {
      ElsewhereUnseen(c, ps[..|ps| - 1], conv);
      DeliverSeen(DeliverAll(c, ps[..|ps| - 1]), ps[|ps| - 1], conv);
    }
  }

  // ----- When they are seen in order -----

  lemma UnbrokenMore(seen: seq<nat>, n: nat)
    requires seen != []
    ensures Unbroken(seen + [n]) <==> Unbroken(seen) && n == seen[|seen| - 1] + 1
  {
    if Unbroken(seen + [n]) {
      forall i | 0 <= i < |seen| ensures seen[i] == seen[0] + i { assert (seen + [n])[i] == seen[i]; }
      assert (seen + [n])[|seen|] == n;
    }
  }

  lemma Earlier(init: seq<Pending>, p: Pending, q: Pending)
    requires Ascends(0, init + [p]) && q in init
    ensures SeqOf(q) < SeqOf(p)
  {
    var i :| 0 <= i < |init| && init[i] == q;
    assert (init + [p])[i] == q && (init + [p])[|init|] == p;
  }

  /** A frame known before, among frames in increasing seq order that follow on, is
      known when its turn comes; an unknown one still is unknown. */
  lemma StaysKnown(place: Place, c: Core, conv: string, init: seq<Pending>, p: Pending)
    requires Remembered(place, c) && AllFit(place, conv, init + [p]) && Ascends(0, init + [p])
    requires Unbroken(Seen(c.log, conv)) && Consecutive(Due(c, conv), Unknown(c, init))
    ensures Known(DeliverAll(c, init), p.env.body.id) <==> Known(c, p.env.body.id)
  {
    var id, all := p.env.body.id, init + [p];
    assert p in all;
    DeliveriesKnow(c, init);
    forall q | q in init ensures SeqOf(q) < SeqOf(p) && (id.Some? ==> q.env.body.id != id) {
      assert q in all;
      Earlier(init, p, q);
    }
    if Known(c, id) {
      assert SeqOf(p) in Seen(c.log, conv);
      assert Unknown(c, init) == {};
    }
  }

  /** What was seen goes on, from `next`, with exactly these seqs. */
  ghost predicate SeenOn(next: nat, seen: seq<nat>, seqs: set<nat>) {
    && seen != [] && (Unbroken(seen) <==> Consecutive(next, seqs))
    && (Unbroken(seen) ==> next <= NextOf(seen) && forall k :: k in seqs <==> next <= k < NextOf(seen))
  }

  lemma LessConsecutive(next: nat, seqs: set<nat>, s: nat)
    requires Consecutive(next, seqs + {s}) && forall k :: k in seqs ==> k < s
    ensures Consecutive(next, seqs)
  {
    forall k | k in seqs ensures next <= k { assert k in seqs + {s}; }
    forall k, x | k in seqs && next <= x <= k ensures x in seqs { assert k in seqs + {s}; }
  }

  lemma BreaksOn(next: nat, seen: seq<nat>, seqs: set<nat>, s: nat)
    requires SeenOn(next, seen, seqs) && !Unbroken(seen) && forall k :: k in seqs ==> k < s
    ensures !Unbroken(seen + [s]) && !Consecutive(next, seqs + {s})
  {
    UnbrokenMore(seen, s);
    if Consecutive(next, seqs + {s}) { LessConsecutive(next, seqs, s); }
  }

  lemma OneMore(next: nat, seen: seq<nat>, seqs: set<nat>, s: nat)
    requires SeenOn(next, seen, seqs) && Unbroken(seen) && forall k :: k in seqs ==> k < s
    ensures SeenOn(next, seen + [s], seqs + {s})
  {
    UnbrokenMore(seen, s);
    if Consecutive(next, seqs + {s}) {
      assert s in seqs + {s} && s !in seqs;
      assert s > NextOf(seen) ==> NextOf(seen) in seqs + {s};
    }
  }

  lemma UnknownBelow(c: Core, init: seq<Pending>, p: Pending)
    requires Ascends(0, init + [p])
    ensures forall k :: k in Unknown(c, init) ==> k < SeqOf(p)
  {
    forall q | q in init ensures SeqOf(q) < SeqOf(p) { Earlier(init, p, q); }
  }

  lemma SeenOneMore(place: Place, c: Core, conv: string, init: seq<Pending>, p: Pending)
    requires Remembered(place, c) && AllFit(place, conv, init + [p]) && Ascends(0, init + [p])
    requires Unbroken(Seen(c.log, conv)) && Seen(c.log, conv) != []
    requires SeenOn(Due(c, conv), Seen(DeliverAll(c, init).log, conv), Unknown(c, init))
    ensures SeenOn(Due(c, conv), Seen(Deliver(DeliverAll(c, init), p).log, conv), Unknown(c, init + [p]))
  {
    var c1, next, unknown := DeliverAll(c, init), Due(c, conv), Unknown(c, init);
    var seen, s := Seen(c1.log, conv), SeqOf(p);
    assert p in init + [p];
    DeliverSeen(c1, p, conv);
    UnknownMore(c, init, p);
    UnknownBelow(c, init, p);
    if Unbroken(seen) {
      StaysKnown(place, c, conv, init, p);
      OneMore(next, seen, unknown, s);
    } else {
      BreaksOn(next, seen, unknown, s);
    }
  }

  /** Frames in increasing seq order are seen without gap or repeat exactly when
      the unknown ones follow on from what was seen. */
  lemma {:induction false} SeenUnbroken(place: Place, c: Core, conv: string, ps: seq<Pending>)
    requires Remembered(place, c) && AllFit(place, conv, ps) && Ascends(0, ps)
    requires Unbroken(Seen(c.log, conv)) && Seen(c.log, conv) != []
    ensures SeenOn(Due(c, conv), Seen(DeliverAll(c, ps).log, conv), Unknown(c, ps))
  {
    if ps != [] {
      var init, p := ps[..|ps| - 1], ps[|ps| - 1];
      assert ps == init + [p];
      assert AllFit(place, conv, init) && Ascends(0, init);
      SeenUnbroken(place, c, conv, init);
      SeenOneMore(place, c, conv, init, p);
    }
  }
}
