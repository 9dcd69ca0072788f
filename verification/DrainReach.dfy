/** The drain gets everything (src/agentchatme/_realtime.py:1132-1235): alone with a
    server that answers each request with as many rows as it has, up to a hundred,
    it routes every row stored there, once and in order, and if each one is handed
    over cleanly the server has every row delivered at the end. */
module DrainReach {
  import opened Wrappers
  import opened Envelopes
  import opened Ordering
  import opened OrderingLaws
  import opened Delivery
  import opened DeliveryLaws
  import opened Drain
  import opened DrainLaws

  // ----- What is left to read -----

  /** The messages stored from row `from` on, oldest first. */
  function Left(server: Server, from: nat): seq<Body>
    decreases |server| - from
  {
    if from >= |server| then []
    else (if server[from].delivered then [] else [server[from].body]) + Left(server, from + 1)
  }

  /** As many stored rows after the cursor as there are, up to a hundred. */
  ghost predicate FullPage(server: Server, after: Option<string>, page: seq<nat>) {
    IsPage(server, after, page) && |page| == Min(100, |Left(server, Through(server, after))|)
  }

  /** Every row passes the structural check and has a delivery id. */
  predicate GoodRows(server: Server) {
    forall j :: 0 <= j < |server| ==> server[j].valid && server[j].cursor.Some?
  }

  function EndOf(from: nat, page: seq<nat>): nat {
    if page == [] then from else page[|page| - 1] + 1
  }

  lemma RowsTail(server: Server, page: seq<nat>)
    requires page != [] && forall j :: j in page ==> j < |server|
    ensures forall j :: j in page[1..] ==> j < |server|
    ensures page[0] in page
    ensures Bodies(RowsAt(server, page)) == [server[page[0]].body] + Bodies(RowsAt(server, page[1..]))
  {
    assert forall j :: j in page[1..] ==> j in page;
    assert page[0] in page;
  }

  /** Stored rows from `from` on, and all up to the last of them. */
  ghost predicate Stretch(server: Server, from: nat, page: seq<nat>) {
    && Increasing(page)
    && (forall j :: j in page ==> from <= j < |server| && !server[j].delivered)
    && (forall j :: from <= j < |server| && !server[j].delivered && j !in page ==> forall i :: i in page ==> i < j)
  }

  lemma StretchTail(server: Server, page: seq<nat>)
    requires page != [] && Stretch(server, page[0], page)
    ensures Stretch(server, page[0] + 1, page[1..])
  {
    forall j | j in page[1..] ensures j in page && page[0] < j {
      var i :| 0 <= i < |page[1..]| && page[1..][i] == j;
      assert page[i + 1] == j;
    }
    forall j | j in page && j != page[0] ensures j in page[1..] {
      var i :| 0 <= i < |page| && page[i] == j;
      assert page[1..][i - 1] == j;
    }
  }

  lemma StretchSkip(server: Server, from: nat, page: seq<nat>)
    requires page != [] && from < page[0] && Stretch(server, from, page)
    ensures Stretch(server, from + 1, page) && from < |server| && server[from].delivered
  {
    assert page[0] in page;
    forall j | j in page ensures from < j { assert page[0] <= j; }
  }

  lemma PageHead(server: Server, page: seq<nat>)
    requires page != [] && page[0] in page
    requires Stretch(server, page[0], page) && Stretch(server, page[0] + 1, page[1..])
    requires Left(server, page[0] + 1) ==
             Bodies(RowsAt(server, page[1..])) + Left(server, EndOf(page[0] + 1, page[1..]))
    ensures Left(server, page[0]) == Bodies(RowsAt(server, page)) + Left(server, EndOf(page[0], page))
  {
    RowsTail(server, page);
    EndOfTail(page);
    LeftTakes(server, page[0]);
    Assoc([server[page[0]].body], Bodies(RowsAt(server, page[1..])), Left(server, EndOf(page[0], page)));
  }

  lemma EndOfTail(page: seq<nat>)
    requires page != []
    ensures EndOf(page[0] + 1, page[1..]) == EndOf(page[0], page)
  {
  }

  lemma LeftTakes(server: Server, from: nat)
    requires from < |server| && !server[from].delivered
    ensures Left(server, from) == [server[from].body] + Left(server, from + 1)
  {
  }

  lemma Assoc(a: seq<Body>, b: seq<Body>, c: seq<Body>)
    ensures a + (b + c) == a + b + c
  {
  }

  /** A page holds what is left up to its end. */
  lemma {:induction false} PageLeft(server: Server, from: nat, page: seq<nat>)
    requires Stretch(server, from, page)
    ensures Left(server, from) == Bodies(RowsAt(server, page)) + Left(server, EndOf(from, page))
    decreases |server| - from
  {
    if page == [] {
      assert Bodies(RowsAt(server, page)) == [];
    } else if from == First(server, from, page) {
      StretchTail(server, page);
      PageLeft(server, from + 1, page[1..]);
      PageHead(server, page);
    } else {
      StretchSkip(server, from, page);
      PageLeft(server, from + 1, page);
      PageSkip(server, from, page);
    }
  }

  lemma PageSkip(server: Server, from: nat, page: seq<nat>)
    requires page != [] && from < |server| && server[from].delivered && forall j :: j in page ==> j < |server|
    requires Left(server, from + 1) == Bodies(RowsAt(server, page)) + Left(server, EndOf(from + 1, page))
    ensures Left(server, from) == Bodies(RowsAt(server, page)) + Left(server, EndOf(from, page))
  {
    LeftSkips(server, from);
  }

  function First(server: Server, from: nat, page: seq<nat>): (j: nat)
    requires page != [] && forall j :: j in page ==> from <= j < |server|
    ensures j in page && from <= j < |server|
  {
    page[0]
  }

  lemma LeftSkips(server: Server, from: nat)
    requires from < |server| && server[from].delivered
    ensures Left(server, from) == Left(server, from + 1)
  {
  }

  lemma {:induction false} LeftStays(server: Server, server': Server, from: nat)
    requires |server'| == |server| && forall j :: from <= j < |server| ==> server'[j] == server[j]
    ensures Left(server', from) == Left(server, from)
    decreases |server| - from
  {
    if from < |server| { LeftStays(server, server', from + 1); }
  }

  lemma {:induction false} NoneLeft(server: Server, from: nat, j: nat)
    requires Left(server, from) == [] && from <= j < |server|
    ensures server[j].delivered
    decreases j - from
  {
    if from < j { NoneLeft(server, from + 1, j); }
  }

  function Stored(server: Server, from: nat): (page: seq<nat>)
    ensures |page| == |Left(server, from)|
    decreases |server| - from
  {
    if from >= |server| then []
    else (if server[from].delivered then [] else [from]) + Stored(server, from + 1)
  }

  /** The stored rows from `from` on, in order. */
  ghost predicate AllFrom(server: Server, from: nat, page: seq<nat>) {
    Increasing(page) && forall j :: j in page <==> from <= j < |server| && !server[j].delivered
  }

  lemma AllFromMore(server: Server, from: nat, rest: seq<nat>)
    requires from < |server| && AllFrom(server, from + 1, rest)
    ensures AllFrom(server, from, if server[from].delivered then rest else [from] + rest)
  {
    if !server[from].delivered {
      forall i | 0 <= i < |rest| ensures from < rest[i] { assert rest[i] in rest; }
    }
  }

  lemma {:induction false} StoredIs(server: Server, from: nat)
    ensures AllFrom(server, from, Stored(server, from))
    decreases |server| - from
  {
    if from < |server| {
      var rest := Stored(server, from + 1);
      StoredIs(server, from + 1);
      AllFromMore(server, from, rest);
      assert Stored(server, from) == if server[from].delivered then rest else [from] + rest;
    }
  }

  lemma PrefixStretch(server: Server, from: nat, all: seq<nat>, n: nat)
    requires AllFrom(server, from, all) && n <= |all|
    ensures Stretch(server, from, all[..n])
  {
    var page := all[..n];
    assert forall j :: j in page ==> j in all;
    assert forall x :: 0 <= x < n ==> all[x] in page;
    forall j, i | j in all && j !in page && i in page ensures i < j {
      var k :| 0 <= k < |all| && all[k] == j;
      var m :| 0 <= m < |page| && page[m] == i;
      assert all[m] == i;
    }
  }

  /** There is such a page for every request. */
  lemma FullPageExists(server: Server, after: Option<string>) returns (page: seq<nat>)
    ensures FullPage(server, after, page)
  {
    var from := Through(server, after);
    var all := Stored(server, from);
    StoredIs(server, from);
    page := all[..Min(100, |all|)];
    PrefixStretch(server, from, all, Min(100, |all|));
  }

  // ----- An invalid row -----

  /** A page with an invalid row, behind its clean prefix. */
  predicate LastPage(phase: Phase) {
    match phase
    case Routing(_, _, rows, envs, _) => |envs| < |rows|
    case Committing(_, rows, clean, _) => clean < |rows|
    case _ => false
  }

  /** Only rows before the first invalid one are routed, and the page is the last. */
  lemma InvalidIsLast(s: System, i: nat)
    requires s.phase.Fetching? && !s.engine.core.disposed && i < |s.phase.rows| && !s.phase.rows[i].valid
    ensures LastPage(Open(s).phase) && |Open(s).phase.envs| <= i
  {
  }

  /** No further page is asked for in that drain. */
  lemma {:induction false} InvalidStops(s: System, ms: seq<Move>)
    requires LastPage(s.phase) && DrainOn(s, ms)
    ensures LastPage(Moves(s, ms).phase)
  {
    if ms != [] {
      DrainOnBefore(s, ms);
      InvalidStops(s, ms[..|ms| - 1]);
    }
  }

  // ----- A drain that nothing disturbs -----

  /** A move of the drain alone: requests are answered in full, commits are taken. */
  ghost predicate QuietMove(s: System, m: Move) {
    match m
    case PageRead(page) => s.phase.Asking? ==> FullPage(s.server, s.phase.at.after, page)
    case PageComes => true
    case RowRouted => true
    case PageRouted => true
    case AckAnswered(applied, failed) => applied && !failed
    case _ => false
  }

  ghost predicate Quiet(s: System, ms: seq<Move>) {
    ms == [] ||
    var n := |ms| - 1;
    Quiet(s, ms[..n]) && QuietMove(Moves(s, ms[..n]), ms[n])
  }

  /** The message a move routes. */
  ghost function RoutedNow(s: System, m: Move): seq<Body> {
    if m.RowRouted? && Possible(s, m) then [s.phase.envs[|s.phase.routed|].body] else []
  }

  /** The messages routed, in order. */
  ghost function RoutedBy(s: System, ms: seq<Move>): seq<Body> {
    if ms == [] then []
    else
      var n := |ms| - 1;
      RoutedBy(s, ms[..n]) + RoutedNow(Moves(s, ms[..n]), ms[n])
  }

  lemma {:induction false} QuietSplit(s: System, a: seq<Move>, b: seq<Move>)
    ensures Quiet(s, a + b) <==> Quiet(s, a) && Quiet(Moves(s, a), b)
    ensures Moves(s, a + b) == Moves(Moves(s, a), b)
  {
    if b == [] {
      assert a + b == a;
    } else {
      var n := |b| - 1;
      QuietSplit(s, a, b[..n]);
      QuietMore(s, a + b[..n], b[n]);
      QuietMore(Moves(s, a), b[..n], b[n]);
      assert a + b == a + b[..n] + [b[n]] && b == b[..n] + [b[n]];
    }
  }

  lemma QuietMore(s: System, ms: seq<Move>, m: Move)
    ensures Quiet(s, ms + [m]) <==> Quiet(s, ms) && QuietMove(Moves(s, ms), m)
    ensures Moves(s, ms + [m]) == Step(Moves(s, ms), m)
  {
    assert (ms + [m])[..|ms|] == ms;
  }

  // ----- What a page is on its way -----

  /** The page as read, with what is left after it. */
  ghost predicate PageHolds(server: Server, after: Option<string>, rows: seq<Row>) {
    && rows != [] && (forall i :: 0 <= i < |rows| ==> rows[i].valid && rows[i].cursor.Some?)
    && Through(server, after) < Through(server, rows[|rows| - 1].cursor)
    && (|rows| < 100 ==> Left(server, Through(server, rows[|rows| - 1].cursor)) == [])
  }

  function LeftAfter(server: Server, rows: seq<Row>): seq<Body>
    requires rows != []
  {
    Left(server, Through(server, rows[|rows| - 1].cursor))
  }

  /** `done` and what the phase has yet to route are all the messages there were. */
  ghost predicate Course(all: seq<Body>, server: Server, phase: Phase, done: seq<Body>) {
    match phase
    case Resting => done == all
    case Asking(at) => done + Left(server, Through(server, at.after)) == all
    case Fetching(at, page, rows) =>
      && FullPage(server, at.after, page) && rows == RowsAt(server, page)
      && done + Left(server, Through(server, at.after)) == all
    case Routing(at, page, rows, envs, routed) =>
      && PageHolds(server, at.after, rows) && |envs| == |rows| && |routed| <= |rows|
      && (forall i :: 0 <= i < |rows| ==> envs[i].body == rows[i].body)
      && done + Bodies(rows)[|routed|..] + LeftAfter(server, rows) == all
    case Committing(at, rows, clean, cursor) =>
      && PageHolds(server, at.after, rows) && clean == |rows|
      && Through(server, Some(cursor)) <= Through(server, rows[|rows| - 1].cursor)
      && done + LeftAfter(server, rows) == all
  }

  /** On course, and nothing stands in the way. */
  ghost predicate Ahead(all: seq<Body>, s: System, done: seq<Body>) {
    !s.engine.core.disposed && GoodRows(s.server) && Course(all, s.server, s.phase, done)
  }

  lemma GoodPrefix(rows: seq<Row>)
    requires forall i :: 0 <= i < |rows| ==> rows[i].valid
    ensures CleanPrefix(rows) == |rows| && rows[..|rows|] == rows
  {
    if rows != [] { GoodPrefix(rows[1..]); }
  }

  /** What a full page leaves. */
  lemma PageLeaves(server: Server, after: Option<string>, page: seq<nat>)
    requires FullPage(server, after, page) && GoodRows(server) && UniqueCursors(server)
    ensures var rows := RowsAt(server, page);
      if rows == [] then Left(server, Through(server, after)) == []
      else PageHolds(server, after, rows)
           && Left(server, Through(server, after)) == Bodies(rows) + LeftAfter(server, rows)
  {
    var rows, from := RowsAt(server, page), Through(server, after);
    PageLeft(server, from, page);
    if page != [] {
      var last := page[|page| - 1];
      assert last in page;
      assert HasCursor(server, last, server[last].cursor.value);
      ThroughNamed(server, last, server[last].cursor.value);
      assert Through(server, rows[|rows| - 1].cursor) == EndOf(from, page);
      forall i | 0 <= i < |rows| ensures rows[i].valid && rows[i].cursor.Some? { assert page[i] in page; }
      assert |Bodies(rows)| == |page|;
    }
  }

  lemma OpenCourse(all: seq<Body>, s: System, done: seq<Body>)
    requires Ahead(all, s, done) && s.phase.Fetching? && UniqueCursors(s.server)
    ensures Ahead(all, Open(s), done)
  {
    var Fetching(at, page, rows) := s.phase;
    PageLeaves(s.server, at.after, page);
    if rows != [] {
      GoodPrefix(rows);
      assert Bodies(rows)[0..] == Bodies(rows) && done + (Bodies(rows) + LeftAfter(s.server, rows)) == all;
    }
  }

  lemma RouteCourse(all: seq<Body>, s: System, done: seq<Body>)
    requires Ahead(all, s, done) && Possible(s, RowRouted) && Safe(s.engine)
    ensures Ahead(all, RouteNext(s), done + [s.phase.envs[|s.phase.routed|].body])
  {
    var n, env, bodies := |s.phase.routed|, s.phase.envs[|s.phase.routed|], Bodies(s.phase.rows);
    RouteSafe(s.engine, env, false, false);
    assert bodies[n..] == [env.body] + bodies[n + 1..];
    assert done + bodies[n..] == done + [env.body] + bodies[n + 1..];
  }

  // ----- The end of a page -----

  /** Reading on, or done. */
  lemma FinishCourse(all: seq<Body>, s: System, done: seq<Body>, at: Cursors, rows: seq<Row>)
    requires !s.engine.core.disposed && GoodRows(s.server) && PageHolds(s.server, at.after, rows)
    requires done + LeftAfter(s.server, rows) == all
    ensures Ahead(all, Finish(s, at, rows, |rows|), done)
  {
    assert rows[..|rows|] == rows;
    assert LastCursor(rows) == rows[|rows| - 1].cursor;
  }

  lemma SettledCourse(all: seq<Body>, s: System, done: seq<Body>)
    requires Ahead(all, s, done) && Possible(s, PageRouted) && Inv(s)
    ensures Ahead(all, PageSettled(s), done)
  {
    var Routing(at, page, rows, envs, routed) := s.phase;
    assert Bodies(rows)[|routed|..] == [] && done + [] == done;
    if at.frozen {
      FinishCourse(all, s, done, at, rows);
    } else {
      JudgedCourse(all, s, done);
    }
  }

  lemma JudgedCourse(all: seq<Body>, s: System, done: seq<Body>)
    requires Ahead(all, s, done) && Possible(s, PageRouted) && !s.phase.at.frozen && Inv(s)
    requires done + LeftAfter(s.server, s.phase.rows) == all
    ensures Ahead(all, PageSettled(s), done)
  {
    var Routing(at, page, rows, envs, routed) := s.phase;
    var v := Judge(s.engine.core, rows, envs, routed, 0, None);
    JudgedThrough(s, v);
    if v.cursor.None? { FinishCourse(all, WithCore(s, v.core), done, at.(frozen := v.frozen), rows); }
  }

  lemma JudgedThrough(s: System, v: Verdict)
    requires Inv(s) && Possible(s, PageRouted) && PageHolds(s.server, s.phase.at.after, s.phase.rows)
    requires !s.engine.core.disposed
    requires v == Judge(s.engine.core, s.phase.rows, s.phase.envs, s.phase.routed, 0, None)
    ensures v.core.disposed == s.engine.core.disposed
    ensures v.cursor.Some? ==>
      Through(s.server, v.cursor) <= Through(s.server, s.phase.rows[|s.phase.rows| - 1].cursor)
  {
    var n := JudgeSafe(s.engine.core, s.phase.rows, s.phase.envs, s.phase.routed, 0, None);
    if v.cursor.Some? {
      var m := LastCursorAt(s.phase.rows[..n]);
      PageOrder(s, m);
    }
  }

  /** Delivery ids within a page stand in page order. */
  lemma PageOrder(s: System, m: nat)
    requires Inv(s) && s.phase.Routing? && m < |s.phase.rows| && s.phase.rows[m].cursor.Some?
    requires s.phase.rows[|s.phase.rows| - 1].cursor.Some?
    ensures Through(s.server, s.phase.rows[m].cursor) <= Through(s.server, s.phase.rows[|s.phase.rows| - 1].cursor)
  {
    var page, rows, last := s.phase.page, s.phase.rows, |s.phase.rows| - 1;
    assert HasCursor(s.server, page[m], rows[m].cursor.value);
    assert HasCursor(s.server, page[last], rows[last].cursor.value);
    ThroughNamed(s.server, page[m], rows[m].cursor.value);
    ThroughNamed(s.server, page[last], rows[last].cursor.value);
    assert m < last ==> page[m] < page[last];
  }

  lemma AnswerCourse(all: seq<Body>, s: System, done: seq<Body>)
    requires Ahead(all, s, done) && s.phase.Committing? && Inv(s)
    ensures Ahead(all, Answered(s, true, false), done)
  {
    var Committing(at, rows, clean, cursor) := s.phase;
    MarkedPage(s, at.after, rows, cursor);
    FinishCourse(all, s.(server := MarkThrough(s.server, cursor)), done, at.(acked := Some(cursor)), rows);
  }

  lemma MarkedPage(s: System, after: Option<string>, rows: seq<Row>, cursor: string)
    requires Inv(s) && s.phase.Committing? && s.phase.rows == rows && s.phase.at.after == after
    requires s.phase.clean == |rows| && PageHolds(s.server, after, rows) && GoodRows(s.server)
    requires Through(s.server, Some(cursor)) <= Through(s.server, rows[|rows| - 1].cursor)
    ensures var server := MarkThrough(s.server, cursor);
      PageHolds(server, after, rows) && LeftAfter(server, rows) == LeftAfter(s.server, rows) && GoodRows(server)
  {
    var server, last := MarkThrough(s.server, cursor), rows[|rows| - 1].cursor;
    assert Names(s.server, last.value);
    MarkKeeps(s.server, cursor, after);
    MarkKeeps(s.server, cursor, last);
    LeftStays(s.server, server, Through(s.server, last));
  }

  /** A commit moves no cursor. */
  lemma MarkKeeps(server: Server, cursor: string, c: Option<string>)
    requires UniqueCursors(server) && (c.Some? ==> Names(server, c.value))
    ensures UniqueCursors(MarkThrough(server, cursor)) && Through(MarkThrough(server, cursor), c) == Through(server, c)
  {
    var server' := MarkThrough(server, cursor);
    assert Evolves(server, server') && UniqueCursors(server');
    ThroughEvolves(server, server', c);
  }

  // ----- Everything is routed -----

  lemma StepCourse(all: seq<Body>, s: System, done: seq<Body>, m: Move)
    requires Ahead(all, s, done) && Inv(s) && QuietMove(s, m)
    ensures Ahead(all, Step(s, m), done + RoutedNow(s, m))
  {
    if Possible(s, m) {
      match m
      case PageRead(page) =>
      case PageComes => OpenCourse(all, s, done);
      case RowRouted => RouteCourse(all, s, done);
      case PageRouted => SettledCourse(all, s, done);
      case AckAnswered(_, _) => AnswerCourse(all, s, done);
    }
    if !m.RowRouted? || !Possible(s, m) { assert done + RoutedNow(s, m) == done; }
  }

  lemma {:induction false} QuietCourse(all: seq<Body>, s: System, done: seq<Body>, ms: seq<Move>)
    requires Ahead(all, s, done) && Inv(s) && Quiet(s, ms)
    ensures Ahead(all, Moves(s, ms), done + RoutedBy(s, ms))
  {
    if ms == [] {
      assert done + [] == done;
    } else {
      var n := |ms| - 1;
      var s1, sofar := Moves(s, ms[..n]), RoutedBy(s, ms[..n]);
      QuietCourse(all, s, done, ms[..n]);
      MovesInv(s, ms[..n]);
      StepCourse(all, s1, done + sofar, ms[n]);
      assert Moves(s, ms) == Step(s1, ms[n]) && RoutedBy(s, ms) == sofar + RoutedNow(s1, ms[n]);
      assert done + (sofar + RoutedNow(s1, ms[n])) == done + sofar + RoutedNow(s1, ms[n]);
    }
  }

  /** A drain that begins. */
  ghost predicate Beginning(s: System) {
    Inv(s) && !s.engine.core.disposed && GoodRows(s.server) && s.phase == Asking(Cursors(None, None, false))
  }

  /** An undisturbed drain that has come to its end has routed every message the
      server had stored, once and in order. */
  lemma {:induction false} AllRouted(s: System, ms: seq<Move>)
    requires Beginning(s) && Quiet(s, ms) && Moves(s, ms).phase.Resting?
    ensures RoutedBy(s, ms) == Left(s.server, 0)
  {
    BeginsAhead(s);
    QuietCourse(Left(s.server, 0), s, [], ms);
    RestsDone(Left(s.server, 0), Moves(s, ms), [] + RoutedBy(s, ms));
    NothingBefore(RoutedBy(s, ms));
  }

  lemma BeginsAhead(s: System)
    requires Beginning(s)
    ensures Ahead(Left(s.server, 0), s, [])
  {
    NothingBefore(Left(s.server, 0));
  }

  lemma RestsDone(all: seq<Body>, s: System, done: seq<Body>)
    requires Ahead(all, s, done) && s.phase.Resting?
    ensures done == all
  {
  }

  lemma NothingBefore(bodies: seq<Body>)
    ensures [] + bodies == bodies
  {
  }
}
