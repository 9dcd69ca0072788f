/** Running the gate over a tray (src/agentchatme/gate.py:404-418, 422-571, 654-670).
    The server's readiness to take the k-th record call is a parameter. */
module Tray {
  import opened Wrappers
  import opened Gate

  /** `preview` is the message id of the preview, if the card has one. */
  datatype Card = Card(id: string, preview: Option<Field>, last: Field)

  datatype Call = Call(id: string, decision: Decision, category: Option<string>, anchor: Option<string>)

  datatype ReplyEntry = ReplyEntry(id: string, card: Card, category: Option<string>, anchor: Option<string>)

  datatype Answer = ModelFailed | NothingParsable | Items(items: seq<Item>)

  datatype Outcome = Decided | Empty | FailClosed

  datatype Result = Result(
    outcome: Outcome, reply: seq<ReplyEntry>, verdicts: seq<Verdict>,
    undecided: seq<string>, recorded: nat, failures: seq<string>)

  // ----- The tray -----

  function TextOf(f: Field): Option<string> {
    if f.Str? && f.s != "" then Some(f.s) else None
  }

  /** The preview's message, or the newest one. */
  function AnchorOf(card: Card): Option<string> {
    if card.preview.Some? && TextOf(card.preview.value).Some? then TextOf(card.preview.value) else TextOf(card.last)
  }

  /** A message is the anchor if it is the preview's, or the newest one of a card whose
      preview has none. */
  lemma AnchorExactly(card: Card, m: string)
    ensures AnchorOf(card) == Some(m) <==>
      m != "" && (card.preview == Some(Str(m))
                  || (card.last == Str(m) && (card.preview in {None, Some(NotText), Some(Str(""))})))
  {
  }

  function CardIds(tray: seq<Card>): (r: seq<string>)
    ensures |r| == |tray| && forall i :: 0 <= i < |tray| ==> r[i] == tray[i].id
  {
    seq(|tray|, i requires 0 <= i < |tray| => tray[i].id)
  }

  predicate Has(tray: seq<Card>, id: string) {
    id in CardIds(tray)
  }

  /** The first card with this id. */
  function First(tray: seq<Card>, id: string): (card: Card)
    requires Has(tray, id)
    ensures card.id == id
  {
    if Has(tray[..|tray| - 1], id) then First(tray[..|tray| - 1], id) else tray[|tray| - 1]
  }

  /** The last card with this id. */
  function Last(tray: seq<Card>, id: string): (card: Card)
    requires Has(tray, id)
    ensures card.id == id
  {
    if tray[|tray| - 1].id == id then tray[|tray| - 1] else Last(tray[..|tray| - 1], id)
  }

  /** What a run keeps of a doubled id: the last card's anchor, and for the host the
      last card of a typed tray, the first of a raw one. */
  datatype Prepared = Prepared(cards: map<string, Card>, anchors: map<string, Option<string>>)

  function PreparedFor(tray: seq<Card>, typed: bool): Prepared {
    Prepared(
      map id | id in CardIds(tray) :: if typed then Last(tray, id) else First(tray, id),
      map id | id in CardIds(tray) :: AnchorOf(Last(tray, id)))
  }

  /** The typed cards by id, the last of a doubled one; none of a raw tray. */
  method TypedCards(tray: seq<Card>, typed: bool) returns (m: map<string, Card>)
    ensures m.Keys == if typed then Elements(CardIds(tray)) else {}
    ensures forall id :: id in m ==> m[id] == Last(tray, id)
  {
    m := map[];
    if !typed { return; }
    for n := 0 to |tray|
      invariant m.Keys == Elements(CardIds(tray[..n]))
      invariant forall id :: id in m ==> m[id] == Last(tray[..n], id)
    {
      OneMoreCard(tray, n);
      m := m[tray[n].id := tray[n]];
    }
    assert tray[..|tray|] == tray;
  }

  method Prepare(tray: seq<Card>, typed: bool) returns (p: Prepared)
    ensures p == PreparedFor(tray, typed)
  {
    var typedCards := TypedCards(tray, typed);
    p := Prepared(map[], map[]);
    for n := 0 to |tray|
      invariant IsCards(p.cards, tray, typed, n)
      invariant IsAnchors(p.anchors, tray, n)
    {
      var card := tray[n];
      assert CardIds(tray)[n] == card.id;
      var chosen := if card.id in typedCards then typedCards[card.id] else card;
      CardsMore(p.cards, tray, typed, n, chosen);
      AnchorsMore(p.anchors, tray, n);
      p := Prepared(
        if card.id in p.cards then p.cards else p.cards[card.id := chosen], p.anchors[card.id := AnchorOf(card)]);
    }
    AllPrepared(p, tray, typed);
  }

  lemma AllPrepared(p: Prepared, tray: seq<Card>, typed: bool)
    requires IsCards(p.cards, tray, typed, |tray|) && IsAnchors(p.anchors, tray, |tray|)
    ensures p == PreparedFor(tray, typed)
  {
    assert tray[..|tray|] == tray;
    var q := PreparedFor(tray, typed);
    assert p.cards.Keys == q.cards.Keys && p.anchors.Keys == q.anchors.Keys;
  }

  ghost predicate IsCards(cards: map<string, Card>, tray: seq<Card>, typed: bool, n: nat)
    requires n <= |tray|
  {
    && cards.Keys == Elements(CardIds(tray[..n]))
    && forall id :: id in cards ==> Has(tray, id) && cards[id] == Chosen(tray, typed, tray[..n], id)
  }

  ghost predicate IsAnchors(anchors: map<string, Option<string>>, tray: seq<Card>, n: nat)
    requires n <= |tray|
  {
    && anchors.Keys == Elements(CardIds(tray[..n]))
    && forall id :: id in anchors ==> anchors[id] == AnchorOf(Last(tray[..n], id))
  }

  lemma OneMoreCard(tray: seq<Card>, n: nat)
    requires n < |tray|
    ensures tray[..n + 1][..n] == tray[..n] && tray[..n + 1][n] == tray[n]
    ensures Elements(CardIds(tray[..n + 1])) == Elements(CardIds(tray[..n])) + {tray[n].id}
  {
    assert tray[..n + 1][..n] == tray[..n];
    assert CardIds(tray[..n + 1]) == CardIds(tray[..n]) + [tray[n].id];
  }

  lemma CardsMore(cards: map<string, Card>, tray: seq<Card>, typed: bool, n: nat, chosen: Card)
    requires n < |tray| && IsCards(cards, tray, typed, n) && Has(tray, tray[n].id)
    requires chosen == if typed then Last(tray, tray[n].id) else tray[n]
    ensures IsCards(if tray[n].id in cards then cards else cards[tray[n].id := chosen], tray, typed, n + 1)
  {
    OneMoreCard(tray, n);
  }

  lemma AnchorsMore(anchors: map<string, Option<string>>, tray: seq<Card>, n: nat)
    requires n < |tray| && IsAnchors(anchors, tray, n)
    ensures IsAnchors(anchors[tray[n].id := AnchorOf(tray[n])], tray, n + 1)
  {
    OneMoreCard(tray, n);
  }

  /** The card a run holds on to, having seen this much of the tray. */
  function Chosen(tray: seq<Card>, typed: bool, seen: seq<Card>, id: string): Card
    requires Has(tray, id) && Has(seen, id)
  {
    if typed then Last(tray, id) else First(seen, id)
  }

  // ----- A run -----

  function CallFor(v: Verdict, p: Prepared): Call
    requires v.id in p.anchors
  {
    Call(v.id, v.decision, v.category, p.anchors[v.id])
  }

  function EntryFor(v: Verdict, p: Prepared): ReplyEntry
    requires v.id in p.anchors && v.id in p.cards
  {
    ReplyEntry(v.id, p.cards[v.id], v.category, p.anchors[v.id])
  }

  ghost predicate Known(vs: seq<Verdict>, p: Prepared) {
    p.cards.Keys == p.anchors.Keys && forall i :: 0 <= i < |vs| ==> vs[i].id in p.anchors
  }

  /** The dismiss and defer verdicts, in order. */
  function CallsFor(vs: seq<Verdict>, p: Prepared): seq<Call>
    requires Known(vs, p)
  {
    if vs == [] then [] else
      var init, v := vs[..|vs| - 1], vs[|vs| - 1];
      if v.decision.Reply? then CallsFor(init, p) else CallsFor(init, p) + [CallFor(v, p)]
  }

  /** The reply verdicts, in order. */
  function EntriesFor(vs: seq<Verdict>, p: Prepared): seq<ReplyEntry>
    requires Known(vs, p)
  {
    if vs == [] then [] else
      var init, v := vs[..|vs| - 1], vs[|vs| - 1];
      if v.decision.Reply? then EntriesFor(init, p) + [EntryFor(v, p)] else EntriesFor(init, p)
  }

  /** The ids of the calls the server took, or did not take. */
  function Sifted(calls: seq<Call>, takes: nat -> bool, want: bool): seq<string> {
    if calls == [] then [] else
      var n := |calls| - 1;
      if takes(n) == want then Sifted(calls[..n], takes, want) + [calls[n].id] else Sifted(calls[..n], takes, want)
  }

  function Undecided(ids: seq<string>, decided: set<string>): seq<string> {
    if ids == [] then [] else
      var n := |ids| - 1;
      if ids[n] in decided then Undecided(ids[..n], decided) else Undecided(ids[..n], decided) + [ids[n]]
  }

  function VerdictsOf(tray: seq<Card>, categories: seq<string>, answer: Answer): seq<Verdict> {
    if answer.Items? then Parsed(answer.items, Elements(CardIds(tray)), categories) else []
  }

  ghost predicate DecidedBy(r: Result, calls: seq<Call>, tray: seq<Card>, typed: bool, vs: seq<Verdict>,
                            takes: nat -> bool) {
    var p := PreparedFor(tray, typed);
    && Known(vs, p)
    && r.outcome == Decided && r.verdicts == vs
    && r.reply == EntriesFor(vs, p)
    && calls == CallsFor(vs, p)
    && r.recorded == |Sifted(calls, takes, true)|
    && r.failures == Sifted(calls, takes, false)
    && r.undecided == Undecided(CardIds(tray), Elements(Ids(vs)))
  }

  method Run(tray: seq<Card>, typed: bool, categories: seq<string>, answer: Answer, takes: nat -> bool)
    returns (r: Result, calls: seq<Call>)
    ensures tray == [] ==> r == Result(Empty, [], [], [], 0, []) && calls == []
    ensures tray != [] && VerdictsOf(tray, categories, answer) == [] ==>
      r == Result(FailClosed, [], [], CardIds(tray), 0, []) && calls == []
    ensures tray != [] && VerdictsOf(tray, categories, answer) != [] ==>
      DecidedBy(r, calls, tray, typed, VerdictsOf(tray, categories, answer), takes)
  {
    var prepared := Prepare(tray, typed);
    if tray == [] { return Result(Empty, [], [], [], 0, []), []; }
    if !answer.Items? { return Result(FailClosed, [], [], CardIds(tray), 0, []), []; }
    var usable := ParseVerdicts(answer.items, Elements(CardIds(tray)), categories);
    if usable == [] { return Result(FailClosed, [], [], CardIds(tray), 0, []), []; }
    KnownVerdicts(tray, typed, categories, answer);
    var reply, recorded, failures;
    reply, calls, recorded, failures := Carry(usable, prepared, takes);
    var undecided := LeftOver(CardIds(tray), Elements(Ids(usable)));
    r := Result(Decided, reply, usable, undecided, recorded, failures);
  }

  lemma KnownVerdicts(tray: seq<Card>, typed: bool, categories: seq<string>, answer: Answer)
    ensures Known(VerdictsOf(tray, categories, answer), PreparedFor(tray, typed))
  {
    var vs := VerdictsOf(tray, categories, answer);
    if answer.Items? {
      forall i | 0 <= i < |vs| ensures vs[i].id in CardIds(tray) {
        OnePerCard(answer.items, Elements(CardIds(tray)), categories, Ids(vs)[i]);
      }
    }
  }

  lemma {:induction false} CarryMore(vs: seq<Verdict>, n: nat, p: Prepared)
    requires n < |vs| && Known(vs, p)
    ensures EntriesFor(vs[..n + 1], p) ==
            EntriesFor(vs[..n], p) + if vs[n].decision.Reply? then [EntryFor(vs[n], p)] else []
    ensures CallsFor(vs[..n + 1], p) ==
            CallsFor(vs[..n], p) + if vs[n].decision.Reply? then [] else [CallFor(vs[n], p)]
  {
    assert vs[..n + 1][..n] == vs[..n];
  }

  lemma {:induction false} SiftMore(calls: seq<Call>, call: Call, takes: nat -> bool)
    ensures forall want :: Sifted(calls + [call], takes, want) ==
              Sifted(calls, takes, want) + if takes(|calls|) == want then [call.id] else []
  {
    assert (calls + [call])[..|calls|] == calls;
  }

  /** Hand the replies back and record the rest, one call after the other. */
  method Carry(vs: seq<Verdict>, p: Prepared, takes: nat -> bool)
    returns (reply: seq<ReplyEntry>, calls: seq<Call>, recorded: nat, failures: seq<string>)
    requires Known(vs, p)
    ensures reply == EntriesFor(vs, p) && calls == CallsFor(vs, p)
    ensures recorded == |Sifted(calls, takes, true)| && failures == Sifted(calls, takes, false)
  {
    reply, calls, recorded, failures := [], [], 0, [];
    for n := 0 to |vs|
      invariant reply == EntriesFor(vs[..n], p) && calls == CallsFor(vs[..n], p)
      invariant recorded == |Sifted(calls, takes, true)| && failures == Sifted(calls, takes, false)
    {
      var v := vs[n];
      CarryMore(vs, n, p);
      if v.decision.Reply? {
        reply := reply + [EntryFor(v, p)];
      } else {
        var taken := takes(|calls|);
        SiftMore(calls, CallFor(v, p), takes);
        calls := calls + [CallFor(v, p)];
        if taken { recorded := recorded + 1; } else { failures := failures + [v.id]; }
      }
    }
    assert vs[..|vs|] == vs;
  }

  method LeftOver(ids: seq<string>, decided: set<string>) returns (undecided: seq<string>)
    ensures undecided == Undecided(ids, decided)
  {
    undecided := [];
    for n := 0 to |ids|
      invariant undecided == Undecided(ids[..n], decided)
    {
      assert ids[..n + 1][..n] == ids[..n];
      if ids[n] !in decided { undecided := undecided + [ids[n]]; }
    }
    assert ids[..|ids|] == ids;
  }

  // ----- Nothing is lost, nothing is done twice -----

  function EntryIds(es: seq<ReplyEntry>): (r: seq<string>)
    ensures |r| == |es| && forall i :: 0 <= i < |es| ==> r[i] == es[i].id
  {
    seq(|es|, i requires 0 <= i < |es| => es[i].id)
  }

  function CallIds(calls: seq<Call>): (r: seq<string>)
    ensures |r| == |calls| && forall i :: 0 <= i < |calls| ==> r[i] == calls[i].id
  {
    seq(|calls|, i requires 0 <= i < |calls| => calls[i].id)
  }

  lemma {:induction false} VerdictsSplit(vs: seq<Verdict>, p: Prepared)
    requires Known(vs, p)
    ensures multiset(Ids(vs)) == multiset(EntryIds(EntriesFor(vs, p))) + multiset(CallIds(CallsFor(vs, p)))
  {
    if vs != [] {
      var init, v := vs[..|vs| - 1], vs[|vs| - 1];
      VerdictsSplit(init, p);
      assert Ids(vs) == Ids(init) + [v.id];
      if v.decision.Reply? {
        assert EntryIds(EntriesFor(vs, p)) == EntryIds(EntriesFor(init, p)) + [v.id];
      } else {
        assert CallIds(CallsFor(vs, p)) == CallIds(CallsFor(init, p)) + [v.id];
      }
    }
  }

  lemma {:induction false} CallsSplit(calls: seq<Call>, takes: nat -> bool)
    ensures multiset(CallIds(calls)) == multiset(Sifted(calls, takes, true)) + multiset(Sifted(calls, takes, false))
  {
    if calls != [] {
      var n := |calls| - 1;
      CallsSplit(calls[..n], takes);
      assert CallIds(calls) == CallIds(calls[..n]) + [calls[n].id];
    }
  }

  lemma {:induction false} DistinctCount(s: seq<string>, x: string)
    requires Distinct(s)
    ensures multiset(s)[x] == if x in s then 1 else 0
  {
    if s != [] {
      var init := s[..|s| - 1];
      DistinctCount(init, x);
      assert s == init + [s[|s| - 1]];
    }
  }

  /** The undecided are the cards without a verdict, each once. */
  lemma {:induction false} UndecidedExactly(ids: seq<string>, decided: set<string>)
    ensures forall x :: x in Undecided(ids, decided) <==> x in ids && x !in decided
    ensures Distinct(ids) ==> Distinct(Undecided(ids, decided))
  {
    if ids != [] {
      var init := ids[..|ids| - 1];
      UndecidedExactly(init, decided);
      assert ids == init + [ids[|ids| - 1]];
    }
  }

  lemma CardsSplit(ids: seq<string>, decided: seq<string>)
    requires Distinct(ids) && Distinct(decided) && Elements(decided) <= Elements(ids)
    ensures multiset(ids) == multiset(decided) + multiset(Undecided(ids, Elements(decided)))
  {
    var rest := Undecided(ids, Elements(decided));
    UndecidedExactly(ids, Elements(decided));
    forall x ensures multiset(ids)[x] == multiset(decided)[x] + multiset(rest)[x] {
      DistinctCount(ids, x);
      DistinctCount(decided, x);
      DistinctCount(rest, x);
      assert x in decided <==> x in Elements(decided);
      assert x in ids <==> x in Elements(ids);
    }
  }

  /** A decided run of a tray with distinct cards puts every card in exactly one
      place: handed back, recorded, failed to record, or undecided. */
  lemma Conservation(tray: seq<Card>, typed: bool, categories: seq<string>, answer: Answer, takes: nat -> bool,
                     r: Result, calls: seq<Call>)
    requires Distinct(CardIds(tray))
    requires DecidedBy(r, calls, tray, typed, VerdictsOf(tray, categories, answer), takes)
    ensures multiset(CardIds(tray)) ==
      multiset(EntryIds(r.reply)) + multiset(Sifted(calls, takes, true)) + multiset(r.failures) + multiset(r.undecided)
    ensures |tray| == |r.reply| + r.recorded + |r.failures| + |r.undecided|
  {
    var vs, p := VerdictsOf(tray, categories, answer), PreparedFor(tray, typed);
    DistinctVerdicts(tray, categories, answer);
    CardsSplit(CardIds(tray), Ids(vs));
    VerdictsSplit(vs, p);
    CallsSplit(calls, takes);
    SameSizes(CardIds(tray), EntryIds(r.reply), Sifted(calls, takes, true), r.failures, r.undecided);
  }

  lemma DistinctVerdicts(tray: seq<Card>, categories: seq<string>, answer: Answer)
    ensures var ids := Ids(VerdictsOf(tray, categories, answer));
      Distinct(ids) && Elements(ids) <= Elements(CardIds(tray))
  {
    var ids := Ids(VerdictsOf(tray, categories, answer));
    if answer.Items? {
      forall id | id in ids ensures id in Elements(CardIds(tray)) {
        OnePerCard(answer.items, Elements(CardIds(tray)), categories, id);
      }
      OnePerCard(answer.items, Elements(CardIds(tray)), categories, "");
    }
  }

  lemma SameSizes(all: seq<string>, a: seq<string>, b: seq<string>, c: seq<string>, d: seq<string>)
    requires multiset(all) == multiset(a) + multiset(b) + multiset(c) + multiset(d)
    ensures |all| == |a| + |b| + |c| + |d|
  {
    assert |multiset(all)| == |all|;
  }

  /** Every record call is about a dismissed or deferred card of the tray and
      carries that card's anchor. */
  lemma {:induction false} CallsAnchored(tray: seq<Card>, typed: bool, vs: seq<Verdict>, k: nat)
    requires Distinct(CardIds(tray)) && Known(vs, PreparedFor(tray, typed))
    requires k < |CallsFor(vs, PreparedFor(tray, typed))|
    ensures var call := CallsFor(vs, PreparedFor(tray, typed))[k];
      && !call.decision.Reply?
      && Verdict(call.id, call.decision, call.category) in vs
      && exists i :: 0 <= i < |tray| && tray[i].id == call.id && call.anchor == AnchorOf(tray[i])
  {
    var init, v := vs[..|vs| - 1], vs[|vs| - 1];
    if k < |CallsFor(init, PreparedFor(tray, typed))| {
      CallsAnchored(tray, typed, init, k);
    } else {
      LastIsThere(tray, v.id);
    }
  }

  lemma {:induction false} LastIsThere(tray: seq<Card>, id: string)
    requires Has(tray, id)
    ensures Last(tray, id) in tray
  {
    if tray[|tray| - 1].id != id { LastIsThere(tray[..|tray| - 1], id); }
  }

  /** A reply entry's anchor is the anchor of the card it holds exactly when the tray
      is typed or the first and the last card of that id have the same anchor. */
  lemma EntryAnchored(tray: seq<Card>, typed: bool, v: Verdict)
    requires Has(tray, v.id)
    ensures var e := EntryFor(v, PreparedFor(tray, typed));
      e.anchor == AnchorOf(e.card) <==> typed || AnchorOf(Last(tray, v.id)) == AnchorOf(First(tray, v.id))
  {
  }

  /** On distinct cards it always is. */
  lemma DistinctAnchored(tray: seq<Card>, typed: bool, v: Verdict)
    requires Has(tray, v.id) && Distinct(CardIds(tray))
    ensures var e := EntryFor(v, PreparedFor(tray, typed)); e.anchor == AnchorOf(e.card)
  {
    OneCard(tray, v.id);
  }

  function DoubledTray(): seq<Card> {
    [Card("c", Some(Str("m1")), NotText), Card("c", Some(Str("m2")), NotText)]
  }

  /** A raw tray of two cards "c" with previews "m1" and "m2": the reply holds the
      first card and the anchor of the second. */
  lemma AnchorDiffers(category: Option<string>)
    ensures Has(DoubledTray(), "c")
    ensures var e := EntryFor(Verdict("c", Reply, category), PreparedFor(DoubledTray(), false));
      e.card == DoubledTray()[0] && AnchorOf(e.card) == Some("m1") && e.anchor == Some("m2")
  {
    var tray := DoubledTray();
    assert tray[..1][..0] == [] && tray[..1] == [tray[0]];
    assert CardIds(tray)[1] == "c" && CardIds(tray[..1])[0] == "c";
    assert First(tray, "c") == First(tray[..1], "c") == tray[0];
  }

  lemma {:induction false} OneCard(tray: seq<Card>, id: string)
    requires Has(tray, id) && Distinct(CardIds(tray))
    ensures First(tray, id) == Last(tray, id)
  {
    var init := tray[..|tray| - 1];
    assert CardIds(tray) == CardIds(init) + [tray[|tray| - 1].id];
    if tray[|tray| - 1].id != id { OneCard(init, id); }
  }

  // ----- Recording a reply -----

  /** The decision the server gave, if it did, and the record calls sent for it. */
  datatype Recording = Recording(decision: Option<nat>, sent: nat)

  /** record() once: `answers` says what the server makes of the k-th call sent. */
  function RecordStep(s: Recording, answers: nat -> Option<nat>): Recording {
    if s.decision.Some? then s else Recording(answers(s.sent), s.sent + 1)
  }

  function RecordedTimes(answers: nat -> Option<nat>, n: nat): Recording {
    if n == 0 then Recording(None, 0) else RecordStep(RecordedTimes(answers, n - 1), answers)
  }

  /** However often record() is called, the server hears of it up to its first
      success and never again, and that success is the decision kept. */
  lemma {:induction false} RecordedOnce(answers: nat -> Option<nat>, n: nat)
    ensures var r := RecordedTimes(answers, n);
      && r.sent <= n
      && (r.decision.Some? ==> r.sent > 0 && r.decision == answers(r.sent - 1))
      && (r.decision.None? ==> r.sent == n)
      && forall k: nat :: k < (if r.decision.Some? then r.sent - 1 else r.sent) ==> answers(k).None?
  {
    if n > 0 { RecordedOnce(answers, n - 1); }
  }

  class GateReply {
    const entry: ReplyEntry
    var decision: Option<nat>
    var sent: nat

    ghost function State(): Recording
      reads this
    {
      Recording(decision, sent)
    }

    constructor (entry: ReplyEntry)
      ensures this.entry == entry && State() == RecordedTimes(_ => None, 0)
    {
      this.entry, decision, sent := entry, None, 0;
    }

    /** Returns what the server said, now or before; the call, if one is made. */
    method Record(answers: nat -> Option<nat>) returns (r: Option<nat>, call: Option<Call>)
      modifies this
      ensures State() == RecordStep(old(State()), answers) && r == decision
      ensures call == if old(decision).Some? then None else Some(Call(entry.id, Reply, entry.category, entry.anchor))
    {
      call := None;
      if decision.None? {
        call := Some(Call(entry.id, Reply, entry.category, entry.anchor));
        decision, sent := answers(sent), sent + 1;
      }
      r := decision;
    }
  }
}
