/** The offline drain (src/agentchatme/_realtime.py:1095-1251) as a state machine
    beside the live engine and an abstract server: each await of the drain is a
    point where anything else may happen. */
module Drain {
  import opened Wrappers
  import opened Envelopes
  import opened Ordering
  import opened Delivery

  const PAGE_SIZE := 100

  /** One row of the server's queue, oldest first. `cursor` is its delivery id
      (None when null or empty), `valid` the answer of the structural check. */
  datatype Row = Row(body: Body, cursor: Option<string>, valid: bool, delivered: bool)

  type Server = seq<Row>

  // ----- The server -----

  predicate HasCursor(server: Server, i: nat, c: string) {
    i < |server| && server[i].cursor == Some(c)
  }

  predicate Names(server: Server, c: string) {
    exists i: nat :: i < |server| && HasCursor(server, i, c)
  }

  function Place(server: Server, c: string): (i: nat)
    requires Names(server, c)
    ensures HasCursor(server, i, c)
  {
    var last := |server| - 1;
    if server[last].cursor == Some(c) then last
    else
      var i: nat :| i < |server| && HasCursor(server, i, c);
      assert HasCursor(server[..last], i, c);
      Place(server[..last], c)
  }

  /** How many rows are at or before the one a cursor names. */
  function Through(server: Server, c: Option<string>): nat {
    if c.Some? && Names(server, c.value) then Place(server, c.value) + 1 else 0
  }

  /** A page: stored rows strictly after the cursor, in order, none skipped. */
  ghost predicate IsPage(server: Server, after: Option<string>, page: seq<nat>) {
    && |page| <= PAGE_SIZE && Increasing(page)
    && (forall j :: j in page ==> Through(server, after) <= j < |server| && !server[j].delivered)
    && (forall j :: Through(server, after) <= j < |server| && !server[j].delivered && j !in page ==>
          forall i :: i in page ==> i < j)
  }

  /** `sync/ack`: everything at or before the cursor is delivered. */
  function MarkThrough(server: Server, c: string): Server {
    seq(|server|, j requires 0 <= j < |server| =>
      if j < Through(server, Some(c)) then server[j].(delivered := true) else server[j])
  }

  /** A delivery ack frame reached the server. */
  function MarkId(server: Server, id: string): Server {
    seq(|server|, j requires 0 <= j < |server| =>
      if server[j].body.id == Some(id) then server[j].(delivered := true) else server[j])
  }

  // ----- The drain -----

  /** The read cursor, the last cursor acked in this drain, and whether acking
      has stopped for the rest of it. */
  datatype Cursors = Cursors(after: Option<string>, acked: Option<string>, frozen: bool)

  datatype Phase =
    | Resting
    | Asking(at: Cursors)
    | Fetching(at: Cursors, page: seq<nat>, rows: seq<Row>)
    | Routing(at: Cursors, page: seq<nat>, rows: seq<Row>, envs: seq<Envelope>, routed: seq<Routed>)
    | Committing(at: Cursors, rows: seq<Row>, clean: nat, cursor: string)

  datatype System = System(server: Server, engine: Engine, phase: Phase)

  /** How many rows come before the first invalid one. */
  function CleanPrefix(rows: seq<Row>): (n: nat)
    ensures n <= |rows| && (forall i :: 0 <= i < n ==> rows[i].valid) && (n < |rows| ==> !rows[n].valid)
  {
    if rows == [] || !rows[0].valid then 0 else 1 + CleanPrefix(rows[1..])
  }

  /** The delivery id of the last row that has one. */
  function LastCursor(rows: seq<Row>): Option<string> {
    if rows == [] then None
    else if rows[|rows| - 1].cursor.Some? then rows[|rows| - 1].cursor
    else LastCursor(rows[..|rows| - 1])
  }

  function Bodies(rows: seq<Row>): seq<Body> {
    seq(|rows|, i requires 0 <= i < |rows| => rows[i].body)
  }

  /** May the ack cursor cover this row? A lookup refreshes the recency set. */
  function RowAckable(c: Core, env: Envelope, routed: Routed): (bool, Core) {
    if env in c.settlements && c.settlements[env].Some? then (c.settlements[env].value, c)
    else if routed.Duplicate? && env.body.id.Some?
    then (Known(c, env.body.id), Refresh(c, env.body.id.value))
    else (false, c)
  }

  datatype Verdict = Verdict(core: Core, cursor: Option<string>, frozen: bool)

  /** Walk the routed rows from i on, up to the first that may not be covered. */
  function Judge(c: Core, rows: seq<Row>, envs: seq<Envelope>, routed: seq<Routed>, i: nat,
                 cursor: Option<string>): Verdict
    requires i <= |envs| <= |rows| && |routed| == |envs|
    decreases |envs| - i
  {
    if i == |envs| then Verdict(c, cursor, false)
    else
      var (ok, c1) := RowAckable(c, envs[i], routed[i]);
      if !ok then Verdict(c1, cursor, true)
      else Judge(c1, rows, envs, routed, i + 1, if rows[i].cursor.Some? then rows[i].cursor else cursor)
  }

  function WithCore(s: System, c: Core): System {
    s.(engine := s.engine.(core := c))
  }

  function Rest(s: System): System {
    WithCore(s, s.engine.core.(settlements := map[])).(phase := Resting)
  }

  /** Where to read on after a page: nowhere at an invalid row, after a short
      page, or when the read cursor cannot advance. */
  function NextPage(at: Cursors, rows: seq<Row>, clean: nat, disposed: bool): Option<Cursors>
    requires clean <= |rows|
  {
    var next := LastCursor(rows[..clean]);
    if clean < |rows| || disposed || |rows| < PAGE_SIZE || next.None? || next == at.after then None
    else Some(at.(after := next))
  }

  function Waiting(next: Option<Cursors>): Phase {
    if next.Some? then Asking(next.value) else Resting
  }

  /** A page is done. */
  function Finish(s: System, at: Cursors, rows: seq<Row>, clean: nat): System
    requires clean <= |rows|
  {
    Rest(s).(phase := Waiting(NextPage(at, rows, clean, s.engine.core.disposed)))
  }

  /** The rows of a page as the server has them. */
  function RowsAt(server: Server, page: seq<nat>): seq<Row>
    requires forall j :: j in page ==> j < |server|
  {
    seq(|page|, i requires 0 <= i < |page| => assert page[i] in page; server[page[i]])
  }

  /** The answer arrives, with the rows as they were when the server read them. */
  function Open(s: System): System
    requires s.phase.Fetching?
  {
    var Fetching(at, page, rows) := s.phase;
    if s.engine.core.disposed || rows == [] then Rest(s)
    else
      var bodies := Bodies(rows[..CleanPrefix(rows)]);
      var envs := Wrap(s.engine.core.tags, bodies);
      WithCore(s, OpenPage(s.engine.core, bodies)).(phase := Routing(at, page, rows, envs, []))
  }

  function RouteNext(s: System): System
    requires s.phase.Routing? && |s.phase.routed| < |s.phase.envs|
  {
    var (engine, routed) := Route(s.engine, s.phase.envs[|s.phase.routed|], false, false);
    System(s.server, engine, s.phase.(routed := s.phase.routed + [routed]))
  }

  function PageSettled(s: System): System
    requires s.phase.Routing? && |s.phase.envs| <= |s.phase.rows|
    requires s.engine.core.disposed || |s.phase.routed| == |s.phase.envs|
  {
    var Routing(at, page, rows, envs, routed) := s.phase;
    if at.frozen || s.engine.core.disposed then Finish(s, at, rows, |envs|)
    else
      var v := Judge(s.engine.core, rows, envs, routed, 0, None);
      var s1, at1 := WithCore(s, v.core), at.(frozen := v.frozen);
      if v.cursor.Some? then s1.(phase := Committing(at1, rows, |envs|, v.cursor.value))
      else Finish(s1, at1, rows, |envs|)
  }

  /** The answer to a commit; a failed one may have reached the server. */
  ghost function Answered(s: System, applied: bool, failed: bool): System
    requires s.phase.Committing? && s.phase.clean <= |s.phase.rows|
  {
    var Committing(at, rows, clean, cursor) := s.phase;
    var s1 := s.(server := if applied then MarkThrough(s.server, cursor) else s.server);
    if failed then Rest(s1) else Finish(s1, at.(acked := Some(cursor)), rows, clean)
  }

  // ----- Moves -----

  datatype Move =
    | Live(input: Input)
    | RowAdded(row: Row)
    | AckReaches(id: string)
    | Begin
    | PageFails
    | PageRead(page: seq<nat>)
    | PageComes
    | RowRouted
    | PageRouted
    | AckAnswered(applied: bool, failed: bool)

  /** Inputs other than the drain's own. */
  predicate FromOutside(i: Input) {
    !i.DrainRow? && !i.PageOpened? && !i.PageDone? && !i.DedupLookup?
  }

  ghost predicate Possible(s: System, m: Move) {
    match m
    case Live(i) => FromOutside(i) && Enabled(s.engine, i)
    case RowAdded(row) =>
      !row.delivered && (row.cursor.Some? ==> !Names(s.server, row.cursor.value))
    case AckReaches(id) => Acked(id) in s.engine.core.log
    case Begin => s.phase.Resting? && s.engine.core.cfg.hasClient && !s.engine.core.disposed
    case PageFails => s.phase.Asking? || s.phase.Fetching?
    case PageRead(page) => s.phase.Asking? && IsPage(s.server, s.phase.at.after, page)
    case PageComes => s.phase.Fetching?
    case RowRouted =>
      s.phase.Routing? && |s.phase.routed| < |s.phase.envs| && !s.engine.core.disposed
    case PageRouted =>
      s.phase.Routing? && |s.phase.envs| <= |s.phase.rows|
      && (s.engine.core.disposed || |s.phase.routed| == |s.phase.envs|)
    case AckAnswered(applied, failed) =>
      s.phase.Committing? && s.phase.clean <= |s.phase.rows| && (applied || failed)
  }

  ghost function Step(s: System, m: Move): System {
    if !Possible(s, m) then s
    else
      match m
      case Live(i) => s.(engine := Next(s.engine, i))
      case RowAdded(row) => s.(server := s.server + [row])
      case AckReaches(id) => s.(server := MarkId(s.server, id))
      case Begin => s.(phase := Asking(Cursors(None, None, false)))
      case PageFails => Rest(s)
      case PageRead(page) => s.(phase := Fetching(s.phase.at, page, RowsAt(s.server, page)))
      case PageComes => Open(s)
      case RowRouted => RouteNext(s)
      case PageRouted => PageSettled(s)
      case AckAnswered(applied, failed) => Answered(s, applied, failed)
  }

  ghost function Moves(s: System, ms: seq<Move>): System {
    if ms == [] then s else Step(Moves(s, ms[..|ms| - 1]), ms[|ms| - 1])
  }

  ghost predicate Initial(s: System) {
    && s.engine == Start(s.engine.core.cfg) && s.phase == Resting
    && UniqueCursors(s.server) && forall j :: 0 <= j < |s.server| ==> !s.server[j].delivered
  }

  ghost predicate UniqueCursors(server: Server) {
    forall i, j :: 0 <= i < j < |server| && server[i].cursor.Some? ==> server[i].cursor != server[j].cursor
  }
}
