/** And delivers everything (src/agentchatme/_realtime.py:1186-1235): when each row of
    an undisturbed drain is handed over, and every handler settles cleanly, the server
    has every row delivered in the end. */
module DrainDone {
  import opened Wrappers
  import opened Envelopes
  import opened Ordering
  import opened OrderingLaws
  import opened Delivery
  import opened DeliveryLaws
  import opened Drain
  import opened DrainLaws
  import opened DrainReach
  import Acks

  /** No handler raises. */
  ghost predicate SettlesAll(c: Core) {
    forall n :: c.cfg.settles(n)
  }

  /** A row routed now is neither parked nor dropped. */
  ghost predicate TakenNow(s: System, m: Move) {
    m.RowRouted? && Possible(s, m) ==>
      Route(s.engine, s.phase.envs[|s.phase.routed|], false, false).1 == Delivered
  }

  ghost predicate AllTaken(s: System, ms: seq<Move>) {
    ms == [] ||
    var n := |ms| - 1;
    AllTaken(s, ms[..n]) && TakenNow(Moves(s, ms[..n]), ms[n])
  }

  // ----- Settling -----

  /** Settlements of c' are those of c, or clean. */
  ghost predicate SettlesOn(c: Core, c': Core) {
    && c'.settlements.Keys == c.settlements.Keys && c'.cfg == c.cfg
    && forall x :: x in c.settlements ==> c'.settlements[x] == c.settlements[x] || c'.settlements[x] == Some(true)
  }

  predicate RowSettled(c: Core, env: Envelope) {
    env in c.settlements && c.settlements[env] == Some(true)
  }

  lemma DeliverSettles(c: Core, p: Pending)
    requires SettlesAll(c)
    ensures SettlesOn(c, Deliver(c, p)) && (p.env in c.settlements ==> RowSettled(Deliver(c, p), p.env))
  {
    Acks.DeliverTells(c, p);
  }

  lemma {:induction false} DeliverAllSettles(c: Core, ps: seq<Pending>)
    requires SettlesAll(c)
    ensures SettlesOn(c, DeliverAll(c, ps))
    ensures forall p :: p in ps && p.env in c.settlements ==> RowSettled(DeliverAll(c, ps), p.env)
  {
    if ps != [] {
      var init, p := ps[..|ps| - 1], ps[|ps| - 1];
      assert ps == init + [p];
      DeliverAllSettles(c, init);
      DeliverSettles(DeliverAll(c, init), p);
    }
  }

  /** A row that is handed over is settled. */
  lemma RouteSettles(e: Engine, env: Envelope)
    requires SettlesAll(e.core) && env in e.core.settlements && Route(e, env, false, false).1 == Delivered
    ensures var c := Route(e, env, false, false).0.core; SettlesOn(e.core, c) && RowSettled(c, env)
  {
    var p, body := Pending(env, false), env.body;
    if body.conv.Some? && body.number.Some? && body.conv.value in e.orders {
      var oc := InOrder(e.orders[body.conv.value], p);
      InOrderKeeps(e.orders[body.conv.value], p);
      DeliverAllSettles(e.core, oc.out);
    } else {
      DeliverSettles(e.core, p);
    }
  }

  // ----- The drain on its way -----

  predicate DeliveredBelow(server: Server, n: nat) {
    forall j :: 0 <= j < n && j < |server| ==> server[j].delivered
  }

  ghost predicate ClearAt(server: Server, at: Cursors) {
    !at.frozen && DeliveredBelow(server, Through(server, at.after))
  }

  /** What was read is delivered, what is being routed is settled, and the commit
      under way covers its whole page. */
  ghost predicate Clear(server: Server, c: Core, phase: Phase) {
    match phase
    case Resting => DeliveredBelow(server, |server|)
    case Asking(at) => ClearAt(server, at)
    case Fetching(at, page, rows) => ClearAt(server, at)
    case Routing(at, page, rows, envs, routed) =>
      && ClearAt(server, at) && |routed| <= |envs|
      && (forall k :: 0 <= k < |envs| ==> envs[k] in c.settlements)
      && (forall k :: 0 <= k < |routed| ==> RowSettled(c, envs[k]))
    case Committing(at, rows, clean, cursor) =>
      !at.frozen && rows != [] && rows[|rows| - 1].cursor == Some(cursor)
  }

  lemma OpenClear(all: seq<Body>, s: System, done: seq<Body>)
    requires Ahead(all, s, done) && s.phase.Fetching? && UniqueCursors(s.server)
    requires Clear(s.server, s.engine.core, s.phase)
    ensures Clear(Open(s).server, Open(s).engine.core, Open(s).phase)
  {
    var Fetching(at, page, rows) := s.phase;
    PageLeaves(s.server, at.after, page);
    if rows == [] {
      AllBelow(s.server, Through(s.server, at.after));
    }
  }

  lemma AllBelow(server: Server, n: nat)
    requires DeliveredBelow(server, n) && Left(server, n) == []
    ensures DeliveredBelow(server, |server|)
  {
    forall j | n <= j < |server| ensures server[j].delivered { NoneLeft(server, n, j); }
  }

  lemma RouteClear(s: System)
    requires Possible(s, RowRouted) && SettlesAll(s.engine.core) && TakenNow(s, RowRouted)
    requires Clear(s.server, s.engine.core, s.phase)
    ensures var s' := RouteNext(s); Clear(s'.server, s'.engine.core, s'.phase) && SettlesAll(s'.engine.core)
  {
    RouteSettles(s.engine, s.phase.envs[|s.phase.routed|]);
  }

  /** The whole page may be committed. */
  lemma SettledClear(all: seq<Body>, s: System, done: seq<Body>)
    requires Ahead(all, s, done) && Possible(s, PageRouted) && Clear(s.server, s.engine.core, s.phase)
    ensures var s' := PageSettled(s); Clear(s'.server, s'.engine.core, s'.phase)
    ensures PageSettled(s).engine.core.cfg == s.engine.core.cfg
  {
    var Routing(at, page, rows, envs, routed) := s.phase;
    var n := JudgeExact(s.engine.core, rows, envs, routed, 0, None);
    assert n < |envs| ==> RowSettled(s.engine.core, envs[n]);
    assert rows[..|rows|] == rows && LastCursor(rows) == rows[|rows| - 1].cursor;
    JudgeKeepsCfg(s.engine.core, rows, envs, routed, 0, None);
  }

  lemma {:induction false} JudgeKeepsCfg(c: Core, rows: seq<Row>, envs: seq<Envelope>, routed: seq<Routed>, i: nat,
                                         cursor: Option<string>)
    requires i <= |envs| <= |rows| && |routed| == |envs|
    ensures Judge(c, rows, envs, routed, i, cursor).core.cfg == c.cfg
    decreases |envs| - i
  {
    if i < |envs| && RowAckable(c, envs[i], routed[i]).0 {
      JudgeKeepsCfg(RowAckable(c, envs[i], routed[i]).1, rows, envs, routed, i + 1,
                    if rows[i].cursor.Some? then rows[i].cursor else cursor);
    }
  }

  lemma AnswerClear(all: seq<Body>, s: System, done: seq<Body>)
    requires Ahead(all, s, done) && s.phase.Committing? && Inv(s) && Clear(s.server, s.engine.core, s.phase)
    ensures var s' := Answered(s, true, false); Clear(s'.server, s'.engine.core, s'.phase)
  {
    var Committing(at, rows, clean, cursor) := s.phase;
    var server, last := MarkThrough(s.server, cursor), rows[|rows| - 1].cursor;
    assert Names(s.server, cursor);
    MarkedPage(s, at.after, rows, cursor);
    MarkKeeps(s.server, cursor, last);
    assert DeliveredBelow(server, Through(server, last));
    assert rows[..|rows|] == rows && LastCursor(rows) == last;
    if |rows| < 100 { AllBelow(server, Through(server, last)); }
  }

  lemma StepClear(all: seq<Body>, s: System, done: seq<Body>, m: Move)
    requires Ahead(all, s, done) && Inv(s) && QuietMove(s, m) && TakenNow(s, m)
    requires SettlesAll(s.engine.core) && Clear(s.server, s.engine.core, s.phase)
    ensures var s' := Step(s, m); SettlesAll(s'.engine.core) && Clear(s'.server, s'.engine.core, s'.phase)
  {
    if Possible(s, m) {
      match m
      case PageRead(page) =>
      case PageComes => OpenClear(all, s, done);
      case RowRouted => RouteClear(s);
      case PageRouted => SettledClear(all, s, done);
      case AckAnswered(_, _) => AnswerClear(all, s, done);
    }
  }

  lemma {:induction false} QuietClear(all: seq<Body>, s: System, ms: seq<Move>)
    requires Ahead(all, s, []) && Inv(s) && Quiet(s, ms) && AllTaken(s, ms)
    requires SettlesAll(s.engine.core) && Clear(s.server, s.engine.core, s.phase)
    ensures var s' := Moves(s, ms); SettlesAll(s'.engine.core) && Clear(s'.server, s'.engine.core, s'.phase)
  {
    if ms != [] {
      var n := |ms| - 1;
      var s1 := Moves(s, ms[..n]);
      QuietClear(all, s, ms[..n]);
      QuietCourse(all, s, [], ms[..n]);
      MovesInv(s, ms[..n]);
      StepClear(all, s1, [] + RoutedBy(s, ms[..n]), ms[n]);
    }
  }

  /** An undisturbed drain whose rows are all handed over, to handlers that never
      raise, leaves no row undelivered. */
  lemma {:induction false} AllDelivered(s: System, ms: seq<Move>)
    requires Beginning(s) && Quiet(s, ms) && Moves(s, ms).phase.Resting?
    requires SettlesAll(s.engine.core) && AllTaken(s, ms)
    ensures forall j :: 0 <= j < |Moves(s, ms).server| ==> Moves(s, ms).server[j].delivered
  {
    QuietClear(Left(s.server, 0), s, ms);
  }
}
