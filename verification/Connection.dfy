/** What happens to a connection from outside (src/agentchatme/_realtime.py:748-770,
    825-887, 944-977, 1017-1091, 1295-1356) and whole runs of it. Every event is
    one step, with the answers the handlers give during it. */
module Connection {
  import opened Wrappers
  import opened Backoff
  import opened Lifecycle

  datatype Input =
    | Call
    | Transport(opening: Opening)
    | Hello
    | Ends(close: Close)
    | Trip
    | Stable
    | Fire(id: nat)
    | Passes(ms: nat)
    | Stop

  /** An event, with the answers of the handlers told of a move to backoff (`late`)
      and of all others during its step. */
  datatype Turn = Turn(input: Input, script: seq<Answer>, late: seq<Answer>)

  // ----- Steps -----

  /** hello.ok: the key is accepted; the attempt counter stays as it is. This step is
      the receive loop's own. */
  function AcceptHello(s: Link): (r: Link)
    requires s.wire.ws.Some? && !s.disposed
    ensures Sound(s) ==> Rested(r)
    ensures Neat(s, r)
    ensures Steady(s, r) && Live(r)
    ensures Exact(s) ==> Exact(r)
    ensures r.verdict == Verdict(None, false)
    ensures Sound(s) ==> r.disposed || (r.phase.Ready? && r.wire.authenticated && r.stability)
  {
    Listen(Notify(SetPhase(Authenticated(s), Ready), Connected))
  }

  function Authenticated(s: Link): Link {
    var wire := s.wire.(authenticated := true, heard := false);
    Note(s.(wire := wire, stability := true, verdict := Verdict(None, false)), HelloAccepted)
  }

  /** The key was rejected: on_error hears of it once a run, `blocked` each time. */
  function EnterBlocked(s: Link, close: Close): (r: Link)
    requires !s.disposed && !s.connecting && !s.wire.authenticated
    ensures Sound(s) ==> Sound(r)
    ensures Neat(s, r)
    ensures Steady(s, r) && Live(r)
    ensures Read(r.log).score == Reported(Read(s.log).score, !s.verdict.announced)
    ensures r.verdict == Verdict(Some(close), true) && !r.phase.Ready?
    ensures s.plan.reconnect && !Busy(r) ==> WaitsSlowly(r.wait)
  {
    TellAndWait(Blame(s, close), !s.verdict.announced)
  }

  function Blame(s: Link, close: Close): (r: Link)
    requires !s.disposed && !s.connecting && !s.wire.authenticated
    ensures Sound(s) ==> Sound(r)
    ensures Neat(s, r)
    ensures Steady(s, r) && r.verdict == Verdict(Some(close), true) && !r.phase.Ready?
    ensures Read(r.log).score == Read(s.log).score
    ensures Sound(s) && s.plan.reconnect && !Busy(r) ==> Busy(s) || Waitable(r)
  {
    SetPhase(s.(verdict := Verdict(Some(close), true)), Phase.Blocked)
  }

  /** The known task is the slow retry. */
  predicate WaitsSlowly(w: Wait) {
    w.slot.Some? && w.slot.value in w.timers && w.timers[w.slot.value].kind.SlowRetry?
  }

  function TellAndWait(s: Link, first: bool): (r: Link)
    ensures Sound(s) && (Busy(s) || !s.plan.reconnect || Waitable(s)) ==> Sound(r)
    ensures Neat(s, r)
    ensures Steady(s, r) && Live(r) && r.verdict == s.verdict && (r.phase.Ready? ==> s.phase.Ready?)
    ensures StaysDue(s, r)
    ensures Read(r.log).score == Reported(Read(s.log).score, first)
    ensures s.plan.reconnect && !Busy(r) ==> WaitsSlowly(r.wait)
  {
    SlowDown(Announce(s, first))
  }

  function Announce(s: Link, first: bool): (r: Link)
    ensures Sound(s) ==> Sound(r)
    ensures Neat(s, r)
    ensures Steady(s, r) && r.verdict == s.verdict && (r.phase.Ready? ==> s.phase.Ready?)
    ensures StaysDue(s, r)
    ensures Read(r.log).score == Reported(Read(s.log).score, first)
  {
    Report(if first then Report(s, ErrorRaised(AuthRejected)) else s, BlockedRaised)
  }

  function Report(s: Link, ev: Event): (r: Link)
    requires ev == ErrorRaised(AuthRejected) || ev == BlockedRaised
    ensures Sound(s) ==> Sound(r)
    ensures Neat(s, r)
    ensures Steady(s, r) && r.verdict == s.verdict && (r.phase.Ready? ==> s.phase.Ready?)
    ensures StaysDue(s, r)
    ensures Read(r.log).score == Count(Read(s.log), ev).score
  {
    Act(Note(s, ev))
  }

  function Reported(c: Score, first: bool): Score {
    c.(errors := if first then c.errors + 1 else c.errors, notices := c.notices + 1)
  }

  /** Arm the slow retry in place of whatever was waiting. */
  function SlowDown(s: Link): (r: Link)
    ensures Sound(s) && (Busy(s) || !s.plan.reconnect || Waitable(s)) ==> Sound(r)
    ensures Tidy(s) ==> Tidy(r)
    ensures Tame(s, r) && Live(r) && r.script == s.script
    ensures NewWaits(s, r)
    ensures if !s.plan.reconnect || Busy(s) then r == s else
      WaitsSlowly(r.wait) && r.wait.timers.Keys == Cancel(s.wait).timers.Keys + {r.wait.slot.value}
  {
    if !s.plan.reconnect || Busy(s) then s
    else
      AuthRetryBounds(s.plan.draws(s.wait.made));
      Arm(s.(wait := Cancel(s.wait)), AuthRetryDelay(s.plan.draws(s.wait.made)), SlowRetry)
  }

  /** The socket closed: only a close the server sent, before hello.ok, can be a
      rejection; every other close takes the normal backoff. */
  function HandleClose(s: Link, close: Close): (r: Link)
    requires s.wire.ws.Some? && !s.disposed && !s.connecting
    ensures Sound(s) ==> Rested(r)
    ensures Neat(s, r)
    ensures Steady(s, r) && Live(r)
    ensures Sound(s) && Exact(s) ==> Exact(r)
    ensures Sound(s) && s.plan.reconnect && !Busy(r) ==> r.wait.slot.Some?
  {
    var s1 := Drop(s, close);
    var r := AfterClose(s1, close, Rejection(s, close));
    SteadyOn(s, s1, r);
    r
  }

  function AfterClose(s: Link, close: Close, rejected: bool): (r: Link)
    requires !s.connecting && !s.wire.authenticated
    requires (s.phase.Ready? ==> s.wire.ws.None?) && (s.wire.ws.Some? ==> s.wire.heard)
    ensures Sound(s) ==> Sound(r) && !r.phase.Ready?
    ensures r.wire.ws.Some? ==> r.wire.heard
    ensures Neat(s, r)
    ensures Steady(s, r) && (!s.disposed ==> Live(r))
    ensures s.disposed ==> r == s
    ensures Sound(s) && s.plan.reconnect && !Busy(r) ==> r.wait.slot.Some?
    ensures !s.disposed && rejected ==>
      r.verdict == Verdict(Some(close), true) && Read(r.log).score == Reported(Read(s.log).score, !s.verdict.announced)
    ensures !rejected ==> r.verdict == s.verdict && Read(r.log).score == Read(s.log).score
  {
    if s.disposed then s
    else if rejected then EnterBlocked(s, close)
    else ScheduleReconnect(s)
  }

  predicate Rejection(s: Link, close: Close) {
    !s.wire.ours && !s.wire.authenticated && Rejects(close)
  }

  function Drop(s: Link, close: Close): (r: Link)
    requires s.wire.ws.Some? && !s.disposed
    ensures Sound(s) ==> Sound(r)
    ensures Neat(s, r)
    ensures Steady(s, r) && r.verdict == s.verdict && r.connecting == s.connecting && !r.wire.authenticated
    ensures (r.phase.Ready? ==> r.wire.ws.None?) && (r.wire.ws.Some? ==> r.wire.heard)
    ensures Sound(s) ==>
      Read(r.log).score == if Rejection(s, close) then Rejected(Read(s.log).score, close) else Read(s.log).score
  {
    Notify(Note(s.(wire := Closed(s.wire).(ours := false), stability := false), SocketEnded(close)),
      Disconnected(s.wire.ours))
  }

  /** A watchdog gives up on the socket: our own close. */
  function GiveUpSocket(s: Link): (r: Link)
    requires s.wire.ws.Some? && !s.disposed
    ensures Rested(s) ==> Rested(r)
    ensures Neat(s, r)
    ensures Steady(s, r) && Live(r)
    ensures Exact(s) ==> Exact(r)
    ensures r.wire.ours
  {
    var s1 := Notify(s, ErrorRaised(TimedOut));
    Note(s1.(wire := s1.wire.(ours := true)), ClosedByUs)
  }

  /** The connection outlived the stability window. */
  function MarkStable(s: Link): (r: Link)
    requires s.stability
    ensures Rested(s) ==> Rested(r) && r.attempts == 0 && !r.stability
    ensures Neat(s, r) && (Live(s) ==> Live(r)) && (Exact(s) ==> Exact(r))
  {
    s.(stability := false, attempts := if !s.disposed && s.wire.authenticated then 0 else s.attempts)
  }

  /** A reconnect wait ran out: forget the known task, then connect. */
  function ReconnectAfter(s: Link, id: nat): (r: Link)
    requires id in s.wait.timers
    ensures Rested(s) ==> Rested(r)
    ensures Neat(s, r)
    ensures Busy(r) && id !in r.wait.timers
    ensures r.attempts >= s.attempts && r.plan == s.plan
    ensures r.time == s.time.(fired := s.time.fired + if s.wait.timers[id].kind.Retry? then 1 else 0)
    ensures Exact(s) ==> Exact(r)
  {
    var s1 := RanOut(s, id);
    if CanConnect(s1) then BeginConnect(s1) else s1
  }

  function RanOut(s: Link, id: nat): Link
    requires id in s.wait.timers
  {
    var fired := s.time.fired + if s.wait.timers[id].kind.Retry? then 1 else 0;
    s.(wait := Wait(None, s.wait.timers - {id}, s.wait.made), time := s.time.(fired := fired))
  }

  // ----- Runs -----

  /** Between steps a stopped client has neither socket nor reconnect task, only an
      authenticated one is ready, and a live socket's receive loop runs. */
  ghost predicate Rested(s: Link) {
    Sound(s) && KeepsRest(s) && (s.phase.Ready? ==> s.wire.authenticated) && (s.wire.ws.Some? ==> s.wire.heard)
  }

  predicate KeepsRest(s: Link) {
    s.disposed ==> s.wire.ws.None? && s.wait.slot.None?
  }

  /** What a step keeps, apart from the verdict. */
  ghost predicate Steady(s: Link, r: Link) {
    && r.attempts >= s.attempts && r.time == s.time && r.plan == s.plan
    && (s.disposed ==> r.disposed)
    && (r.disposed && !s.disposed ==> KeepsRest(r))
    && (s.wire.heard || s.wire.ws.None? ==> r.wire.ws.Some? ==> r.wire.heard)
    && NewWaits(s, r)
  }

  lemma SteadyOn(s: Link, m: Link, r: Link)
    requires Steady(s, m) && Steady(m, r) && (m.disposed ==> r == m)
    ensures Steady(s, r)
  {
  }

  /** The blocked verdict and its reports are what the log says. */
  ghost predicate Exact(s: Link) {
    var c := Read(s.log).score;
    !s.disposed ==>
      && s.verdict == Verdict(c.standing, c.standing.Some?)
      && c.errors == c.runs && c.notices == c.rejections
  }

  function Initial(plan: Plan): Link {
    Link(plan, Idle, false, false, Wire(None, {}, 0, false, false, false), Wait(None, map[], 0),
         0, false, Verdict(None, false), Time(0, 0), [], [], Nothing)
  }

  predicate Enabled(s: Link, input: Input) {
    match input
    case Transport(_) => s.connecting
    case Hello => s.wire.ws.Some? && !s.wire.authenticated
    case Ends(_) => s.wire.ws.Some?
    case Trip => s.wire.ws.Some?
    case Stable => s.stability
    case Fire(id) => id in s.wait.timers && s.wait.timers[id].due <= s.time.clock
    case _ => true
  }

  /** A stopped client has no handlers left. */
  function Heard(s: Link, turn: Turn): Link {
    if s.disposed then s.(script := [], late := []) else s.(script := turn.script, late := turn.late)
  }

  /** One step. */
  function Next(s: Link, turn: Turn): (r: Link)
    requires Rested(s) && Enabled(s, turn.input)
    ensures Rested(r)
    ensures (s.plan.reconnect ==> Friendly(turn.late)) && Tidy(s) ==> Tidy(r)
    ensures Live(s) || turn.input.Call? ==> Live(r)
    ensures Exact(s) ==> Exact(r)
    ensures r.plan == s.plan
  {
    var s0 := Heard(s, turn);
    match turn.input
    case Call => if CanConnect(s0) then BeginConnect(s0) else s0
    case Transport(opening) => EndConnect(s0, opening)
    case Hello => AcceptHello(s0)
    case Ends(close) => HandleClose(s0, close)
    case Trip => GiveUpSocket(s0)
    case Stable => MarkStable(s0)
    case Fire(id) => ReconnectAfter(s0, id)
    case Passes(ms) => s0.(time := s0.time.(clock := s0.time.clock + ms))
    case Stop => Dispose(s0)
  }
}
