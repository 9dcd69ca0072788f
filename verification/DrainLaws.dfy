/** No row is ever committed unseen: the invariant of the drain beside the live
    engine, over every run. */
module DrainLaws {
  import opened Wrappers
  import opened Envelopes
  import opened Ordering
  import opened Delivery
  import opened DeliveryLaws
  import opened Drain

  /** This row may be delivered on the server: it was cleanly dispatched here or,
      when acks are sent on receipt, acked. */
  ghost predicate Covered(c: Core, body: Body) {
    Accepted(c.log, body)
    || (c.cfg.ackOnReceipt && body.id.Some? && Acked(body.id.value) in c.log)
  }

  ghost predicate DeliveredCovered(s: System) {
    forall j :: 0 <= j < |s.server| && s.server[j].delivered ==> Covered(s.engine.core, s.server[j].body)
  }

  ghost predicate CoveredBelow(server: Server, c: Core, n: nat) {
    forall j :: 0 <= j < n && j < |server| ==> Covered(c, server[j].body)
  }

  /** While acking has not stopped, the ack cursor is the read cursor and every
      row it covers is accounted for. */
  ghost predicate CursorsOk(server: Server, c: Core, at: Cursors) {
    && (at.after.Some? ==> Names(server, at.after.value))
    && (!at.frozen ==> at.acked == at.after && CoveredBelow(server, c, Through(server, at.after)))
  }

  /** The page as read: rows and envelopes match the server's rows, and what the
      page skipped was delivered. */
  ghost predicate PageOk(server: Server, after: Option<string>, page: seq<nat>, rows: seq<Row>, envs: seq<Envelope>) {
    && Increasing(page) && |rows| == |page| && |envs| <= |rows|
    && (forall i :: 0 <= i < |page| ==>
          Through(server, after) <= page[i] < |server|
          && rows[i].body == server[page[i]].body && rows[i].cursor == server[page[i]].cursor)
    && (forall i :: 0 <= i < |envs| ==> envs[i].body == rows[i].body)
    && (forall j, i :: Through(server, after) <= j < |server| && j !in page && 0 <= i < |page| && j < page[i]
          ==> server[j].delivered)
  }

  /** Every delivery id of the first n rows names a row after the read cursor. */
  ghost predicate Beyond(server: Server, after: Option<string>, rows: seq<Row>, n: nat)
    requires n <= |rows|
  {
    forall i :: 0 <= i < n && rows[i].cursor.Some? ==>
      Names(server, rows[i].cursor.value) && Through(server, after) < Through(server, rows[i].cursor)
  }

  ghost predicate PhaseOk(s: System) {
    match s.phase
    case Resting => true
    case Asking(at) => CursorsOk(s.server, s.engine.core, at)
    case Fetching(at, page, rows) =>
      CursorsOk(s.server, s.engine.core, at) && PageOk(s.server, at.after, page, rows, [])
    case Routing(at, page, rows, envs, routed) =>
      CursorsOk(s.server, s.engine.core, at) && PageOk(s.server, at.after, page, rows, envs) && |routed| <= |envs|
    case Committing(at, rows, clean, cursor) =>
      && clean <= |rows| && Names(s.server, cursor)
      && CoveredBelow(s.server, s.engine.core, Through(s.server, Some(cursor)))
      && (at.after.Some? ==> Names(s.server, at.after.value)) && Beyond(s.server, at.after, rows, clean)
      && (!at.frozen ==> LastCursor(rows[..clean]) == Some(cursor))
  }

  ghost predicate Inv(s: System) {
    Safe(s.engine) && UniqueCursors(s.server) && DeliveredCovered(s) && PhaseOk(s)
  }

  // ----- Server facts -----

  lemma ThroughNamed(server: Server, i: nat, c: string)
    requires UniqueCursors(server) && HasCursor(server, i, c)
    ensures Through(server, Some(c)) == i + 1
  {
    assert Names(server, c);
    var k := Place(server, c);
    assert server[k].cursor == server[i].cursor;
  }

  /** Rows keep their place, their body and their cursor; none is undelivered again. */
  ghost predicate Evolves(server: Server, server': Server) {
    && |server| <= |server'|
    && forall j :: 0 <= j < |server| ==>
         && server'[j].body == server[j].body && server'[j].cursor == server[j].cursor
         && (server[j].delivered ==> server'[j].delivered)
  }

  lemma ThroughEvolves(server: Server, server': Server, c: Option<string>)
    requires Evolves(server, server') && UniqueCursors(server) && UniqueCursors(server')
    requires c.Some? ==> Names(server, c.value)
    ensures Through(server', c) == Through(server, c) <= |server|
    ensures c.Some? ==> Names(server', c.value)
  {
    if c.Some? {
      var i := Place(server, c.value);
      assert HasCursor(server', i, c.value);
      ThroughNamed(server, i, c.value);
      ThroughNamed(server', i, c.value);
    }
  }

  lemma CoveredGrows(c: Core, c': Core)
    requires Extends(c, c')
    ensures forall b :: Covered(c, b) ==> Covered(c', b)
  {
    AcceptedGrows(c.log, c'.log);
  }

  // ----- The phase survives what happens around it -----

  lemma BeyondStays(server: Server, server': Server, after: Option<string>, rows: seq<Row>, n: nat)
    requires Evolves(server, server') && UniqueCursors(server) && UniqueCursors(server')
    requires after.Some? ==> Names(server, after.value)
    requires n <= |rows| && Beyond(server, after, rows, n)
    ensures Beyond(server', after, rows, n)
  {
    ThroughEvolves(server, server', after);
    forall i | 0 <= i < n && rows[i].cursor.Some?
      ensures Names(server', rows[i].cursor.value) && Through(server', after) < Through(server', rows[i].cursor)
    {
      ThroughEvolves(server, server', rows[i].cursor);
    }
  }

  lemma CursorsOkStays(server: Server, server': Server, c: Core, c': Core, at: Cursors)
    requires Evolves(server, server') && UniqueCursors(server) && UniqueCursors(server') && Extends(c, c')
    requires CursorsOk(server, c, at)
    ensures CursorsOk(server', c', at)
  {
    ThroughEvolves(server, server', at.after);
    CoveredGrows(c, c');
  }

  lemma PageOkStays(server: Server, server': Server, after: Option<string>, page: seq<nat>, rows: seq<Row>,
                    envs: seq<Envelope>)
    requires Evolves(server, server') && UniqueCursors(server) && UniqueCursors(server')
    requires after.Some? ==> Names(server, after.value)
    requires PageOk(server, after, page, rows, envs)
    ensures PageOk(server', after, page, rows, envs)
  {
    ThroughEvolves(server, server', after);
    forall j, i | Through(server', after) <= j < |server'| && j !in page && 0 <= i < |page| && j < page[i]
      ensures server'[j].delivered
    {
      assert page[i] < |server|;
      assert server[j].delivered;
    }
  }

  lemma PhaseStays(s: System, s': System)
    requires Evolves(s.server, s'.server) && UniqueCursors(s.server) && UniqueCursors(s'.server)
    requires Extends(s.engine.core, s'.engine.core) && s'.phase == s.phase && PhaseOk(s)
    ensures PhaseOk(s')
  {
    CoveredGrows(s.engine.core, s'.engine.core);
    match s.phase
    case Resting =>
    case Asking(at) => CursorsOkStays(s.server, s'.server, s.engine.core, s'.engine.core, at);
    case Fetching(at, page, rows) =>
      CursorsOkStays(s.server, s'.server, s.engine.core, s'.engine.core, at);
      PageOkStays(s.server, s'.server, at.after, page, rows, []);
    case Routing(at, page, rows, envs, routed) =>
      CursorsOkStays(s.server, s'.server, s.engine.core, s'.engine.core, at);
      PageOkStays(s.server, s'.server, at.after, page, rows, envs);
    case Committing(at, rows, clean, cursor) =>
      ThroughEvolves(s.server, s'.server, Some(cursor));
      ThroughEvolves(s.server, s'.server, at.after);
      BeyondStays(s.server, s'.server, at.after, rows, clean);
  }

  // ----- Judging a page -----

  lemma RowAckableSafe(c: Core, env: Envelope, routed: Routed)
    requires CoreSafe(c)
    ensures var (ok, c') := RowAckable(c, env, routed);
      CoreSafe(c') && Follows(c, c') && (ok ==> Accepted(c.log, env.body))
  {
    if env.body.id.Some? { RefreshSafe(c, env.body.id.value); }
  }

  /** The verdict covers a prefix of n rows, every one of which settled cleanly
      or was dispatched before; unfrozen it covers the whole page. */
  lemma {:induction false} JudgeSafe(c: Core, rows: seq<Row>, envs: seq<Envelope>, routed: seq<Routed>, i: nat,
                                     cursor: Option<string>)
    returns (n: nat)
    requires i <= |envs| <= |rows| && |routed| == |envs| && CoreSafe(c)
    requires cursor == LastCursor(rows[..i])
    ensures var v := Judge(c, rows, envs, routed, i, cursor);
      && CoreSafe(v.core) && Follows(c, v.core) && v.core.log == c.log
      && i <= n <= |envs| && v.cursor == LastCursor(rows[..n]) && (!v.frozen ==> n == |envs|)
      && forall k :: i <= k < n ==> Accepted(c.log, envs[k].body)
    decreases |envs| - i
  {
    n := i;
    if i < |envs| {
      var (ok, c1) := RowAckable(c, envs[i], routed[i]);
      RowAckableSafe(c, envs[i], routed[i]);
      if ok {
        assert rows[..i + 1][..i] == rows[..i];
        n := JudgeSafe(c1, rows, envs, routed, i + 1, if rows[i].cursor.Some? then rows[i].cursor else cursor);
      }
    }
  }

  /** A row handed over during the page is covered if it settled cleanly; one not
      handed over only as a duplicate whose id is remembered. */
  predicate Ackable(c: Core, env: Envelope, routed: Routed) {
    if env in c.settlements && c.settlements[env].Some? then c.settlements[env] == Some(true)
    else routed == Duplicate && env.body.id.Some? && env.body.id.value in c.dedup
  }

  lemma AckableStays(c: Core, env: Envelope, routed: Routed, e: Envelope, r: Routed)
    ensures Ackable(RowAckable(c, env, routed).1, e, r) == Ackable(c, e, r)
  {
    if env.body.id.Some? && e.body.id.Some? { HitMember(c.dedup, env.body.id.value, e.body.id.value); }
  }

  /** That prefix ends exactly at the first row that may not be covered. */
  lemma {:induction false} JudgeExact(c: Core, rows: seq<Row>, envs: seq<Envelope>, routed: seq<Routed>,
                                      i: nat, cursor: Option<string>)
    returns (n: nat)
    requires i <= |envs| <= |rows| && |routed| == |envs| && cursor == LastCursor(rows[..i])
    ensures i <= n <= |envs|
    ensures forall k :: i <= k < n ==> Ackable(c, envs[k], routed[k])
    ensures n < |envs| ==> !Ackable(c, envs[n], routed[n])
    ensures var v := Judge(c, rows, envs, routed, i, cursor);
      v.cursor == LastCursor(rows[..n]) && (v.frozen <==> n < |envs|)
    decreases |envs| - i
  {
    n := i;
    if i < |envs| && Ackable(c, envs[i], routed[i]) {
      assert rows[..i + 1][..i] == rows[..i];
      var c1 := RowAckable(c, envs[i], routed[i]).1;
      n := JudgeExact(c1, rows, envs, routed, i + 1, if rows[i].cursor.Some? then rows[i].cursor else cursor);
      forall k | i < k < |envs| ensures Ackable(c1, envs[k], routed[k]) == Ackable(c, envs[k], routed[k]) {
        AckableStays(c, envs[i], routed[i], envs[k], routed[k]);
      }
    }
  }

  lemma {:induction false} LastCursorAt(rows: seq<Row>) returns (i: nat)
    requires LastCursor(rows).Some?
    ensures i < |rows| && rows[i].cursor == LastCursor(rows)
  {
    if rows[|rows| - 1].cursor.Some? { i := |rows| - 1; } else { i := LastCursorAt(rows[..|rows| - 1]); }
  }

  /** Committing at row m of a page covers only rows that are accounted for. */
  lemma CommitCovers(s: System, at: Cursors, page: seq<nat>, rows: seq<Row>, envs: seq<Envelope>, m: nat,
                     n: nat, c: string)
    requires Inv(s) && s.phase.Routing? && PageOk(s.server, at.after, page, rows, envs)
    requires CoveredBelow(s.server, s.engine.core, Through(s.server, at.after))
    requires m < n <= |envs| && rows[m].cursor == Some(c)
    requires forall k :: 0 <= k < n ==> Accepted(s.engine.core.log, envs[k].body)
    ensures Names(s.server, c) && CoveredBelow(s.server, s.engine.core, Through(s.server, Some(c)))
  {
    assert HasCursor(s.server, page[m], c);
    ThroughNamed(s.server, page[m], c);
    forall j | 0 <= j <= page[m] ensures Covered(s.engine.core, s.server[j].body) {
      if j >= Through(s.server, at.after) {
        if j in page {
          var k :| 0 <= k < |page| && page[k] == j;
          assert k <= m;
          assert envs[k].body == s.server[j].body;
        } else {
          assert j < page[m];
          assert s.server[j].delivered;
        }
      }
    }
  }

  // ----- The moves -----

  /** After a page the drain rests, or reads on strictly further along. */
  ghost predicate Advanced(before: Option<string>, s: System) {
    s.phase.Asking? ==> Through(s.server, before) < Through(s.server, s.phase.at.after) <= |s.server|
  }

  lemma FinishOk(s: System, at: Cursors, rows: seq<Row>, clean: nat)
    requires Safe(s.engine) && UniqueCursors(s.server) && DeliveredCovered(s)
    requires clean <= |rows| && Beyond(s.server, at.after, rows, clean)
    requires var next := LastCursor(rows[..clean]);
      !at.frozen && next.Some? ==> at.acked == next && CoveredBelow(s.server, s.engine.core, Through(s.server, next))
    ensures Inv(Finish(s, at, rows, clean)) && Advanced(at.after, Finish(s, at, rows, clean))
  {
    var next := LastCursor(rows[..clean]);
    if next.Some? { var i := LastCursorAt(rows[..clean]); }
  }

  lemma PageBeyond(s: System, after: Option<string>, page: seq<nat>, rows: seq<Row>, envs: seq<Envelope>)
    requires UniqueCursors(s.server) && PageOk(s.server, after, page, rows, envs)
    ensures Beyond(s.server, after, rows, |rows|) && Beyond(s.server, after, rows, |envs|)
  {
    forall i | 0 <= i < |rows| && rows[i].cursor.Some?
      ensures Names(s.server, rows[i].cursor.value) && Through(s.server, after) < Through(s.server, rows[i].cursor)
    {
      assert HasCursor(s.server, page[i], rows[i].cursor.value);
      ThroughNamed(s.server, page[i], rows[i].cursor.value);
    }
  }

  lemma PageAsRead(server: Server, after: Option<string>, page: seq<nat>, rows: seq<Row>, envs: seq<Envelope>)
    requires IsPage(server, after, page) && |rows| == |page| && |envs| <= |rows|
    requires forall i :: 0 <= i < |page| && page[i] < |server| ==> rows[i] == server[page[i]]
    requires forall i :: 0 <= i < |envs| ==> envs[i].body == rows[i].body
    ensures PageOk(server, after, page, rows, envs)
  {
    forall i | 0 <= i < |page| ensures Through(server, after) <= page[i] < |server| { assert page[i] in page; }
    forall j, i | Through(server, after) <= j < |server| && j !in page && 0 <= i < |page| && j < page[i]
      ensures server[j].delivered
    {
      assert page[i] in page;
    }
  }

  lemma ReadOk(s: System, page: seq<nat>)
    requires Inv(s) && Possible(s, PageRead(page))
    ensures Inv(Step(s, PageRead(page)))
  {
    PageAsRead(s.server, s.phase.at.after, page, RowsAt(s.server, page), []);
  }

  lemma OpenOk(s: System)
    requires Inv(s) && Possible(s, PageComes)
    ensures Inv(Step(s, PageComes))
  {
    assert Step(s, PageComes) == Open(s);
  }

  /** What a step of the drain must establish. */
  ghost predicate Kept(s: System, s': System)
    requires !s.phase.Resting?
  {
    Inv(s') && Extends(s.engine.core, s'.engine.core) && Advanced(s.phase.at.after, s')
  }

  lemma SettledOk(s: System)
    requires Inv(s) && Possible(s, PageRouted)
    ensures Kept(s, Step(s, PageRouted))
  {
    var Routing(at, page, rows, envs, routed) := s.phase;
    if at.frozen {
      PageBeyond(s, at.after, page, rows, envs);
      FinishOk(s, at, rows, |envs|);
    } else if !s.engine.core.disposed {
      JudgedOk(s);
    }
  }

  /** A verdict on the page of s that covers its first n rows. */
  ghost predicate Judged(s: System, v: Verdict, n: nat)
    requires s.phase.Routing? && |s.phase.envs| <= |s.phase.rows|
  {
    && CoreSafe(v.core) && Follows(s.engine.core, v.core) && v.core.log == s.engine.core.log
    && n <= |s.phase.envs| && v.cursor == LastCursor(s.phase.rows[..n]) && (!v.frozen ==> n == |s.phase.envs|)
    && forall k :: 0 <= k < n ==> Accepted(s.engine.core.log, s.phase.envs[k].body)
  }

  lemma JudgedOk(s: System)
    requires Inv(s) && Possible(s, PageRouted) && !s.phase.at.frozen && !s.engine.core.disposed
    ensures Kept(s, PageSettled(s))
  {
    var n := JudgeSafe(s.engine.core, s.phase.rows, s.phase.envs, s.phase.routed, 0, None);
    var v := Judge(s.engine.core, s.phase.rows, s.phase.envs, s.phase.routed, 0, None);
    if v.cursor.Some? { JudgedCommits(s, v, n); } else { JudgedFinishes(s, v, n); }
  }

  lemma JudgedCommits(s: System, v: Verdict, n: nat)
    requires Inv(s) && s.phase.Routing? && !s.phase.at.frozen && Judged(s, v, n) && v.cursor.Some?
    ensures var Routing(at, _, rows, envs, _) := s.phase;
      Inv(WithCore(s, v.core).(phase := Committing(at.(frozen := v.frozen), rows, |envs|, v.cursor.value)))
  {
    var Routing(at, page, rows, envs, routed) := s.phase;
    CoveredGrows(s.engine.core, v.core);
    PageBeyond(s, at.after, page, rows, envs);
    var m := LastCursorAt(rows[..n]);
    CommitCovers(s, at, page, rows, envs, m, n, v.cursor.value);
  }

  lemma JudgedFinishes(s: System, v: Verdict, n: nat)
    requires Inv(s) && s.phase.Routing? && !s.phase.at.frozen && Judged(s, v, n) && v.cursor.None?
    ensures var Routing(at, _, rows, envs, _) := s.phase;
      var s' := Finish(WithCore(s, v.core), at.(frozen := v.frozen), rows, |envs|);
      Inv(s') && Advanced(at.after, s')
  {
    var Routing(at, page, rows, envs, routed) := s.phase;
    CoveredGrows(s.engine.core, v.core);
    PageBeyond(s, at.after, page, rows, envs);
    FinishOk(WithCore(s, v.core), at.(frozen := v.frozen), rows, |envs|);
  }

  lemma AnsweredOk(s: System, applied: bool, failed: bool)
    requires Inv(s) && Possible(s, AckAnswered(applied, failed))
    ensures Inv(Step(s, AckAnswered(applied, failed)))
    ensures Advanced(s.phase.at.after, Step(s, AckAnswered(applied, failed)))
  {
    var Committing(at, rows, clean, cursor) := s.phase;
    var s1 := s.(server := if applied then MarkThrough(s.server, cursor) else s.server);
    AppliedOk(s, s1);
    assert Step(s, AckAnswered(applied, failed)) ==
           if failed then Rest(s1) else Finish(s1, at.(acked := Some(cursor)), rows, clean);
    if !failed { FinishOk(s1, at.(acked := Some(cursor)), rows, clean); }
  }

  lemma AppliedOk(s: System, s1: System)
    requires Inv(s) && s.phase.Committing?
    requires s1 == s || s1 == s.(server := MarkThrough(s.server, s.phase.cursor))
    ensures Inv(s1)
  {
    assert Evolves(s.server, s1.server) && UniqueCursors(s1.server);
    PhaseStays(s, s1);
  }

  lemma MarkIdOk(s: System, id: string)
    requires Inv(s) && Acked(id) in s.engine.core.log
    ensures Inv(s.(server := MarkId(s.server, id)))
  {
    var s' := s.(server := MarkId(s.server, id));
    forall j | 0 <= j < |s'.server| && s'.server[j].delivered ensures Covered(s.engine.core, s'.server[j].body) {
      if s.server[j].body.id != Some(id) { assert s.server[j].delivered; }
    }
    PhaseStays(s, s');
  }

  lemma StepInv(s: System, m: Move)
    requires Inv(s)
    ensures Inv(Step(s, m)) && Extends(s.engine.core, Step(s, m).engine.core)
  {
    if Possible(s, m) {
      var s' := Step(s, m);
      match m
      case Live(i) =>
        NextSafe(s.engine, i);
        CoveredGrows(s.engine.core, s'.engine.core);
        PhaseStays(s, s');
      case RowAdded(row) =>
        forall i | 0 <= i < |s.server| && row.cursor.Some? ensures s.server[i].cursor != row.cursor {
          assert !HasCursor(s.server, i, row.cursor.value);
        }
        PhaseStays(s, s');
      case AckReaches(id) => MarkIdOk(s, id);
      case Begin =>
      case PageFails =>
      case PageRead(page) => ReadOk(s, page);
      case PageComes => OpenOk(s);
      case RowRouted =>
        RouteSafe(s.engine, s.phase.envs[|s.phase.routed|], false, false);
        CoveredGrows(s.engine.core, s'.engine.core);
        CursorsOkStays(s.server, s.server, s.engine.core, s'.engine.core, s.phase.at);
      case PageRouted => SettledOk(s);
      case AckAnswered(applied, failed) => AnsweredOk(s, applied, failed);
    }
  }

  lemma {:induction false} MovesInv(s: System, ms: seq<Move>)
    requires Inv(s)
    ensures Inv(Moves(s, ms)) && Extends(s.engine.core, Moves(s, ms).engine.core)
  {
    if ms != [] {
      MovesInv(s, ms[..|ms| - 1]);
      StepInv(Moves(s, ms[..|ms| - 1]), ms[|ms| - 1]);
    }
  }

  /** Acking after dispatch: at every point of every run, each message the server
      has marked delivered, by ack frame or by cursor, was cleanly dispatched
      here. With acks on receipt it was cleanly dispatched or its receipt acked. */
  lemma {:induction false} NothingCommittedUnseen(s: System, ms: seq<Move>)
    requires Initial(s)
    ensures var s' := Moves(s, ms);
      forall j :: 0 <= j < |s'.server| && s'.server[j].delivered ==>
        Accepted(s'.engine.core.log, s'.server[j].body)
        || (s.engine.core.cfg.ackOnReceipt && s'.server[j].body.id.Some?
            && Acked(s'.server[j].body.id.value) in s'.engine.core.log)
  {
    MovesInv(s, ms);
  }

  // ----- Freezing and progress -----

  ghost predicate DrainOn(s: System, ms: seq<Move>) {
    forall k :: 0 <= k <= |ms| ==> !Moves(s, ms[..k]).phase.Resting?
  }

  lemma DrainOnBefore(s: System, ms: seq<Move>)
    requires ms != [] && DrainOn(s, ms)
    ensures DrainOn(s, ms[..|ms| - 1]) && !Moves(s, ms).phase.Resting?
  {
    var init := ms[..|ms| - 1];
    assert forall k :: 0 <= k <= |init| ==> init[..k] == ms[..k];
    assert ms[..|ms|] == ms;
  }

  /** Once a row was parked, failed or never seen, nothing is committed again in
      that drain: no commit starts and the acked cursor stays. */
  lemma {:induction false} FrozenForGood(s: System, ms: seq<Move>)
    requires !s.phase.Resting? && !s.phase.Committing? && s.phase.at.frozen && DrainOn(s, ms)
    ensures var s' := Moves(s, ms);
      !s'.phase.Resting? && !s'.phase.Committing? && s'.phase.at.frozen && s'.phase.at.acked == s.phase.at.acked
  {
    if ms != [] {
      DrainOnBefore(s, ms);
      FrozenForGood(s, ms[..|ms| - 1]);
    }
  }

  /** Between one page and the next the read cursor moves to a later row, so a
      drain reads at most as many pages as the server has rows. */
  lemma DrainAdvances(s: System, m: Move)
    requires Inv(s) && (s.phase.Routing? || s.phase.Committing?) && Step(s, m).phase.Asking?
    ensures var s' := Step(s, m);
      Through(s'.server, s.phase.at.after) < Through(s'.server, s'.phase.at.after) <= |s'.server|
  {
    match m
    case PageRouted => SettledOk(s);
    case AckAnswered(applied, failed) => AnsweredOk(s, applied, failed);
    case _ =>
  }

  /** While acking has not stopped, at each page end the acked cursor is the read
      cursor, and every row it covers is accounted for. */
  lemma {:induction false} AckedIsRead(s: System, ms: seq<Move>)
    requires Initial(s)
    ensures var s' := Moves(s, ms);
      s'.phase.Asking? && !s'.phase.at.frozen ==>
        s'.phase.at.acked == s'.phase.at.after
        && CoveredBelow(s'.server, s'.engine.core, Through(s'.server, s'.phase.at.acked))
  {
    MovesInv(s, ms);
  }

  /** The moves that end a routed page: the verdict, and the answer to a commit. */
  predicate PageEnd(ms: seq<Move>) {
    && 1 <= |ms| <= 2 && ms[0].PageRouted? && (|ms| == 2 ==> ms[1].AckAnswered?)
  }

  lemma PageAdvances(s: System, ms: seq<Move>)
    requires Inv(s) && s.phase.Routing? && PageEnd(ms)
    ensures Inv(Moves(s, ms)) && Advanced(s.phase.at.after, Moves(s, ms))
  {
    OneOrTwo(s, ms);
    EndMoveAdvances(s, PageRouted);
    if |ms| == 2 { EndMoveAdvances(Step(s, PageRouted), ms[1]); }
  }

  lemma OneOrTwo(s: System, ms: seq<Move>)
    requires 1 <= |ms| <= 2
    ensures Moves(s, ms) == if |ms| == 1 then Step(s, ms[0]) else Step(Step(s, ms[0]), ms[1])
  {
    assert ms[..1][..0] == [] && ms[..0] == [];
    assert Moves(s, ms[..1]) == Step(s, ms[0]);
  }

  lemma EndMoveAdvances(s: System, m: Move)
    requires Inv(s) && (m.PageRouted? || m.AckAnswered?)
    ensures Inv(Step(s, m))
    ensures if Possible(s, m) then Advanced(s.phase.at.after, Step(s, m)) else Step(s, m) == s
    ensures Possible(s, m) && Step(s, m).phase.Committing? ==> Step(s, m).phase.at.after == s.phase.at.after
  {
    if Possible(s, m) {
      if m.PageRouted? { SettledOk(s); } else { AnsweredOk(s, m.applied, m.failed); }
    }
  }
}
