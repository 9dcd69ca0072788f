/** The connection lifecycle (src/agentchatme/_realtime.py:631-809, 920-971,
    1017-1091, 1255-1370, 1459-1518) on values, with user handlers that may raise,
    reconnect or stop the client from inside any notification. */
module Lifecycle {
  import opened Wrappers
  import opened Backoff
  import opened Text

  datatype Phase = Idle | Connecting | Ready | Backoff | Blocked | Stopped

  /** How opening a transport and sending HELLO turns out. */
  datatype Opening = Opens | HelloFails | Refuses

  /** What handlers do, in the order they are called. Each notification runs the
      answers up to the next Done; a raise is contained. The handlers told of the
      move to backoff answer from `late`, all others from `script`. */
  datatype Answer = Done | Raises | Connects(opening: Opening) | Disconnects

  datatype ErrorKind = ConnectFailed | HelloNotSent | TimedOut | AuthRejected

  datatype Event =
    | StateChanged(phase: Phase)
    | ErrorRaised(kind: ErrorKind)
    | Connected
    | Disconnected(ours: bool)
    | BlockedRaised
    | StoppedRaised
    | SocketOpened
    | HelloAccepted
    | ClosedByUs
    | SocketEnded(close: Close)

  /** The code and reason a socket closed with. */
  datatype Close = Close(code: int, reason: string)

  /** What happened so far, the latest event outermost. */
  datatype Log = Nothing | Then(before: Log, ev: Event)

  /** The options, and the random draws by task number. Clearing the reconnect
      option at a stop is left to `disposed`, which every reader looks at first. */
  datatype Plan = Plan(base: int, cap: int, reconnect: bool, draws: nat -> Draw)

  /** `open` are the sockets not closed yet, `made` how many there ever were;
      `ours` is the mark that this client asked for the close; `heard` says that
      the socket's receive loop runs, elsewhere than in the step under way, and so
      tells on_disconnect of a close. */
  datatype Wire = Wire(ws: Option<nat>, open: set<nat>, made: nat, authenticated: bool, ours: bool, heard: bool)

  /** The backoff wait of an attempt, or the slow retry while blocked. */
  datatype Kind = Retry(attempt: nat) | SlowRetry

  datatype Timer = Timer(due: nat, kind: Kind)

  /** `slot` is the reconnect task the client knows of; `timers` are those
      still waiting. */
  datatype Wait = Wait(slot: Option<nat>, timers: map<nat, Timer>, made: nat)

  /** The blocked reason, and whether on_error was told of this run of rejections. */
  datatype Verdict = Verdict(blocked: Option<Close>, announced: bool)

  /** `fired` counts the backoff waits that ran out. */
  datatype Time = Time(clock: nat, fired: nat)

  datatype Link = Link(
    plan: Plan,
    phase: Phase,
    connecting: bool,
    disposed: bool,
    wire: Wire,
    wait: Wait,
    attempts: nat,
    stability: bool,
    verdict: Verdict,
    time: Time,
    script: seq<Answer>,
    late: seq<Answer>,
    log: Log)

  // ----- What a log says -----

  /** `standing` is the latest rejection, if no accepted HELLO came after it;
      `runs` counts maximal runs of rejections. */
  datatype Score = Score(standing: Option<Close>, rejections: nat, runs: nat, errors: nat, notices: nat)

  /** `handshaking` and `ours` follow the current socket. */
  datatype Tally = Tally(handshaking: bool, ours: bool, score: Score)

  predicate MentionsAt(s: string, word: string, i: nat) {
    i + |word| <= |s| && s[i..i + |word|] == word
  }

  predicate Mentions(s: string, word: string) {
    exists i: nat :: i <= |s| && MentionsAt(s, word, i)
  }

  /** A close with this code and reason, sent by the server during the
      handshake, says that the key was rejected. */
  predicate Rejects(close: Close) {
    close.code in {4401, 4403} || (close.code == 1008 && Mentions(Lower(close.reason), "invalid token"))
  }

  function Rejected(c: Score, close: Close): Score {
    Score(Some(close), c.rejections + 1, if c.standing.Some? then c.runs else c.runs + 1, c.errors, c.notices)
  }

  function Count(t: Tally, ev: Event): Tally {
    match ev
    case SocketOpened => Tally(true, false, t.score)
    case HelloAccepted => Tally(false, t.ours, t.score.(standing := None))
    case ClosedByUs => t.(ours := true)
    case SocketEnded(close) =>
      if t.handshaking && !t.ours && Rejects(close) then t.(score := Rejected(t.score, close)) else t
    case ErrorRaised(AuthRejected) => t.(score := t.score.(errors := t.score.errors + 1))
    case BlockedRaised => t.(score := t.score.(notices := t.score.notices + 1))
    case _ => t
  }

  function Read(log: Log): Tally {
    match log
    case Nothing => Tally(false, false, Score(None, 0, 0, 0, 0))
    case Then(before, ev) => Count(Read(before), ev)
  }

  /** Events that say nothing about rejections or sockets. */
  predicate Plain(ev: Event) {
    || ev.StateChanged? || ev.Connected? || ev.Disconnected? || ev.StoppedRaised?
    || (ev.ErrorRaised? && !ev.kind.AuthRejected?)
  }

  function Note(s: Link, ev: Event): (r: Link)
    ensures Read(r.log) == Count(Read(s.log), ev)
    ensures Plain(ev) ==> Read(r.log) == Read(s.log)
  {
    s.(log := Then(s.log, ev))
  }

  // ----- What handlers cannot break -----

  ghost predicate WireOk(w: Wire) {
    && w.open == (if w.ws.Some? then {w.ws.value} else {})
    && (w.authenticated || w.heard ==> w.ws.Some?)
  }

  /** The known reconnect task, if any, is waiting. */
  ghost predicate WaitOk(w: Wait) {
    && (w.slot.Some? ==> w.slot.value in w.timers)
    && (forall id :: id in w.timers ==> id < w.made)
  }

  /** The flags of the live socket agree with the log. */
  ghost predicate Tracks(s: Link) {
    s.wire.ws.Some? ==> Read(s.log).handshaking == !s.wire.authenticated && Read(s.log).ours == s.wire.ours
  }

  /** The reported state is true: connecting while opening, ready once
      authenticated, and backoff or blocked while a reconnect task is known,
      which is never while a transport is opening or live. The stability window
      is that of the authenticated socket. */
  ghost predicate Truthful(s: Link) {
    (s.stability ==> s.wire.authenticated) &&
    (!s.disposed ==>
      && (s.connecting ==> s.phase.Connecting?)
      && (s.wire.authenticated ==> s.phase.Ready?)
      && (s.wait.slot.Some? ==>
            && s.plan.reconnect && !s.connecting && s.wire.ws.None?
            && (s.phase.Backoff? || s.phase.Blocked?)))
  }

  /** At most one transport, opening or live, and no other socket is open. */
  ghost predicate Sound(s: Link) {
    && !(s.connecting && s.wire.ws.Some?)
    && WireOk(s.wire) && WaitOk(s.wait) && Tracks(s)
    && (s.phase.Stopped? <==> s.disposed) && Truthful(s)
  }

  predicate Fails(a: Answer) {
    a.Connects? && !a.opening.Opens?
  }

  /** No handler reconnects and fails. */
  ghost predicate Friendly(script: seq<Answer>) {
    forall i :: 0 <= i < |script| ==> !Fails(script[i])
  }

  /** No handler told of a move to backoff reconnects and fails, if there are such moves. */
  ghost predicate Mild(s: Link) {
    s.plan.reconnect ==> Friendly(s.late)
  }

  predicate Busy(s: Link) {
    s.disposed || s.connecting || s.wire.ws.Some?
  }

  /** The known reconnect task is the only one waiting, and only while nothing
      is opening or open. */
  ghost predicate Tidy(s: Link) {
    && s.wait.timers.Keys == (if s.wait.slot.Some? then {s.wait.slot.value} else {})
    && (s.connecting || s.wire.ws.Some? ==> s.wait.slot.None?)
  }

  /** As long as no handler told of the move to backoff reconnects and fails, the
      timers stay tidy. */
  ghost predicate Neat(s: Link, r: Link) {
    Mild(s) ==> Mild(r) && (Tidy(s) ==> Tidy(r))
  }

  predicate Live(s: Link) {
    s.disposed || !s.plan.reconnect || s.connecting || s.wire.ws.Some? || s.wait.timers != map[]
  }

  /** What no handler activity changes. */
  ghost predicate Calm(s: Link, r: Link) {
    && |r.script| <= |s.script| && |r.late| <= |s.late|
    && r.plan == s.plan && r.time == s.time && r.verdict == s.verdict
    && Read(r.log).score == Read(s.log).score
    && r.attempts >= s.attempts
    && (s.disposed ==> r.disposed) && (s.stability ==> r.stability || r.disposed)
    && (r.wire.authenticated ==> s.wire.authenticated)
    && (r.phase.Ready? ==> s.phase.Ready? && (s.wire.ws.None? ==> r.wire.ws.None?))
    && (r.disposed && (!s.disposed || s.wait.slot.None?) ==> r.wait.slot.None?)
  }

  /** A live socket stays, unless the client is stopped; connecting blocks others. */
  ghost predicate KeepsSocket(s: Link, r: Link) {
    && (s.wire.ws.Some? ==> r.wire == s.wire || (r.disposed && r.wire.ws.None?))
    && ((s.connecting || s.disposed) && s.wire.ws.None? ==> r.wire.ws.None?)
    && (r.disposed && !s.disposed ==> r.wire.ws.None?)
    && (s.wire.ws.None? && r.wire.ws.Some? ==> r.wire.heard)
  }

  predicate Waitable(s: Link) {
    s.plan.reconnect && (s.phase.Backoff? || s.phase.Blocked?)
  }

  /** Left unconnected, a client due for a reconnect task still is, and one that
      had a reconnect task has one. */
  ghost predicate StaysDue(s: Link, r: Link) {
    Sound(s) && !Busy(s) && Waitable(s) && !Busy(r) ==> Waitable(r) && (s.wait.slot.Some? ==> r.wait.slot.Some?)
  }

  ghost predicate BecomesDue(s: Link, r: Link) {
    Sound(s) && s.plan.reconnect && !Busy(r) ==> Waitable(r) && r.wait.slot.Some?
  }

  /** While a transport is opening or live, or the client is stopped, no handler
      touches the timers. */
  ghost predicate StaysBusy(s: Link, r: Link) {
    Busy(s) && s.wait.slot.None? ==> Busy(r) && r.wait == s.wait
  }

  /** A stretch of handler activity: nothing it must not touch changes, and a
      client that was opening, open or waiting still is. */
  ghost predicate Tame(s: Link, r: Link) {
    Calm(s, r) && KeepsSocket(s, r) && r.connecting == s.connecting && (Live(s) ==> Live(r))
    && StaysDue(s, r) && StaysBusy(s, r)
  }

  /** A timer armed since `s`: none waits longer than the longest wait, and a
      backoff wait is for an attempt newer than those of `s` and takes at least
      three quarters of its step. */
  predicate Timely(s: Link, t: Timer, attempts: nat) {
    && t.due <= s.time.clock + LongestWait(s.plan.cap)
    && (t.kind.Retry? ==> s.attempts < t.kind.attempt <= attempts && Waited(s, t.due, t.kind.attempt))
  }

  predicate Waited(s: Link, due: nat, attempt: nat)
    requires attempt >= 1
  {
    due >= s.time.clock + Floor(s.plan.base, s.plan.cap, attempt)
  }

  ghost predicate NewWaits(s: Link, r: Link) {
    forall id :: id in r.wait.timers && !(id in s.wait.timers && r.wait.timers[id] == s.wait.timers[id]) ==>
      Timely(s, r.wait.timers[id], r.attempts)
  }

  // ----- Notifications -----

  /** The answers up to the next Done. */
  function Act(s: Link): (r: Link)
    ensures Sound(s) ==> Sound(r)
    ensures Neat(s, r)
    ensures Tame(s, r)
    ensures NewWaits(s, r)
    decreases |s.script| + |s.late|, 0
  {
    if s.script == [] then s
    else
      var s1 := s.(script := s.script[1..]);
      if s.script[0].Done? then s1 else Act(Do(s1, s.script[0]))
  }

  /** The same, of the handlers told of the move to backoff. */
  function ActLate(s: Link): (r: Link)
    ensures Sound(s) ==> Sound(r)
    ensures Neat(s, r)
    ensures Friendly(s.late) && s.wait.slot.None? ==> Busy(r) || r.wait.slot.None?
    ensures Tame(s, r)
    ensures NewWaits(s, r)
    decreases |s.script| + |s.late|, 1
  {
    if s.late == [] then s
    else
      var s1 := s.(late := s.late[1..]);
      if s.late[0].Done? then s1 else ActLate(Do(s1, s.late[0]))
  }

  function Do(s: Link, answer: Answer): (r: Link)
    ensures Sound(s) ==> Sound(r)
    ensures Neat(s, r)
    ensures !Fails(answer) && s.wait.slot.None? ==> Busy(r) || r.wait.slot.None?
    ensures Tame(s, r)
    ensures NewWaits(s, r)
    decreases |s.script| + |s.late|, 9
  {
    match answer
    case Connects(opening) => ConnectNow(s, opening)
    case Disconnects => Dispose(s)
    case _ => s
  }

  function Notify(s: Link, ev: Event): (r: Link)
    requires Plain(ev)
    ensures Sound(s) ==> Sound(r)
    ensures Neat(s, r)
    ensures Tame(s, r)
    ensures NewWaits(s, r)
    ensures ev == StateChanged(Backoff) && Friendly(s.late) && s.wait.slot.None? ==> Busy(r) || r.wait.slot.None?
    decreases |s.script| + |s.late|, 2
  {
    if ev == StateChanged(Backoff) then ActLate(Note(s, ev)) else Act(Note(s, ev))
  }

  function SetPhase(s: Link, phase: Phase): (r: Link)
    ensures Sound(s.(phase := phase)) ==> Sound(r)
    ensures Neat(s, r)
    ensures Tame(s.(phase := phase), r)
    ensures NewWaits(s, r)
    ensures s.phase == phase ==> r == s
    ensures phase.Backoff? && Friendly(s.late) && s.wait.slot.None? ==> Busy(r) || r.wait.slot.None?
    decreases |s.script| + |s.late|, 3
  {
    if s.phase == phase then s else Notify(s.(phase := phase), StateChanged(phase))
  }

  // ----- Reconnecting -----

  function Cancel(w: Wait): (r: Wait)
    ensures WaitOk(w) ==> WaitOk(r)
  {
    Wait(None, if w.slot.Some? then w.timers - {w.slot.value} else w.timers, w.made)
  }

  function Armed(w: Wait, timer: Timer): (r: Wait)
    ensures WaitOk(w) ==> WaitOk(r)
    ensures r.timers != map[] && r.slot == Some(w.made) && r.timers.Keys == w.timers.Keys + {w.made}
  {
    assert w.made in w.timers[w.made := timer];
    Wait(Some(w.made), w.timers[w.made := timer], w.made + 1)
  }

  function Arm(s: Link, delay: nat, kind: Kind): Link {
    s.(wait := Armed(s.wait, Timer(s.time.clock + delay, kind)))
  }

  predicate SlotPending(w: Wait) {
    w.slot.Some? && w.slot.value in w.timers
  }

  /** The delay is fixed before the state handlers run; whether the client is
      still unconnected is looked at again after them, a timer they armed is not. */
  function ScheduleReconnect(s: Link): (r: Link)
    ensures Sound(s) ==> Sound(r)
    ensures Neat(s, r)
    ensures Tame(s, r) && Live(r)
    ensures NewWaits(s, r)
    ensures r.phase.Ready? ==> Busy(s) || SlotPending(s.wait)
    ensures BecomesDue(s, r)
    decreases |s.script| + |s.late|, 5
  {
    if Busy(s) then s
    else if !s.plan.reconnect then (if s.phase.Blocked? then s else SetPhase(s, Idle))
    else if SlotPending(s.wait) then s
    else BackOff(s)
  }

  function Tried(s: Link): Link {
    s.(attempts := s.attempts + 1)
  }

  /** Left unconnected, the client waits with one more timer than before. */
  ghost predicate OneMore(s: Link, r: Link) {
    if Busy(s) then r == s else
      && !Busy(r)
      && r.wait.slot == Some(s.wait.made) && r.wait.made == s.wait.made + 1
      && r.wait.timers.Keys == s.wait.timers.Keys + {s.wait.made}
  }

  function BackOff(s: Link): (r: Link)
    requires !Busy(s) && s.plan.reconnect && !SlotPending(s.wait)
    ensures Sound(s) ==> Sound(r)
    ensures Neat(s, r)
    ensures Tame(s, r) && Live(r)
    ensures NewWaits(s, r)
    ensures OneMore(SetPhase(Tried(s), Backoff), r) && !r.phase.Ready? && BecomesDue(s, r)
    decreases |s.script| + |s.late|, 4
  {
    ArmRetry(SetPhase(Tried(s), Backoff), s.attempts + 1)
  }

  function ArmRetry(s: Link, attempt: nat): (r: Link)
    requires attempt >= 1
    ensures Sound(s) && (Busy(s) || Waitable(s)) ==> Sound(r)
    ensures Tidy(s) && (Busy(s) || s.wait.slot.None?) ==> Tidy(r)
    ensures Tame(s, r) && Live(r) && r.script == s.script && r.late == s.late && r.attempts == s.attempts
    ensures OneMore(s, r)
    ensures forall id :: id in r.wait.timers && !(id in s.wait.timers && r.wait.timers[id] == s.wait.timers[id]) ==>
      && r.wait.timers[id].kind == Retry(attempt) && Waited(s, r.wait.timers[id].due, attempt)
      && r.wait.timers[id].due <= s.time.clock + LongestWait(s.plan.cap)
  {
    if Busy(s) then s
    else
      DelayBounds(s.plan.base, s.plan.cap, attempt, s.plan.draws(s.wait.made));
      Arm(s, ReconnectDelay(s.plan.base, s.plan.cap, attempt, s.plan.draws(s.wait.made)), Retry(attempt))
  }

  predicate CanConnect(s: Link) {
    !s.disposed && !s.connecting && s.wire.ws.None?
  }

  /** connect() up to the opening of the transport. */
  function BeginConnect(s: Link): (r: Link)
    requires CanConnect(s)
    ensures Sound(s) ==> Sound(r)
    ensures Neat(s, r)
    ensures Calm(s, r) && r.connecting && r.wire.ws.None? && !r.phase.Ready?
    ensures r.wait == Cancel(s.wait)
    ensures NewWaits(s, r)
    decreases |s.script| + |s.late|, 4
  {
    SetPhase(s.(connecting := true, wait := Cancel(s.wait)), Connecting)
  }

  /** The rest of connect(), once the transport opened or failed to. */
  function EndConnect(s: Link, opening: Opening): (r: Link)
    requires s.connecting && s.wire.ws.None? && !s.phase.Ready?
    ensures Sound(s) ==> Sound(r)
    ensures Neat(s, r)
    ensures Calm(s, r) && !r.connecting && Live(r) && BecomesDue(s, r)
    ensures NewWaits(s, r)
    ensures r.disposed ==> r.wire.ws.None?
    ensures r.wire.ws.Some? ==> r.wire.heard
    ensures opening.Opens? ==> r.wait == s.wait && (r.disposed || r.wire.ws.Some?)
    decreases |s.script| + |s.late|, 7
  {
    var s1 := s.(connecting := false);
    if opening.Refuses? then ScheduleReconnect(Notify(s1, ErrorRaised(ConnectFailed)))
    else if s.disposed then s1
    else if opening.Opens? then Listen(OpenSocket(s))
    else GiveUpHello(OpenSocket(s))
  }

  function OpenSocket(s: Link): (r: Link)
    requires s.wire.ws.None? && s.connecting && !s.phase.Ready?
    ensures Sound(s) && !s.disposed ==> Sound(r)
    ensures Neat(s, r)
    ensures Calm(s, r) && r.wire.ws.Some? && !r.connecting && !r.wire.authenticated && r.disposed == s.disposed
    ensures !r.wire.ours && !r.wire.heard && r.wait == s.wait
    ensures NewWaits(s, r)
  {
    var s1 := s.(connecting := false, wire := Opened(s.wire));
    Note(s1, SocketOpened)
  }

  /** HELLO is sent: the receive loop starts. */
  function Listen(s: Link): Link {
    s.(wire := s.wire.(heard := s.wire.ws.Some?))
  }

  function Opened(w: Wire): (r: Wire)
    ensures WireOk(w) && w.ws.None? ==> WireOk(r)
  {
    Wire(Some(w.made), w.open + {w.made}, w.made + 1, false, false, false)
  }

  function Closed(w: Wire): Wire {
    w.(ws := None, open := if w.ws.Some? then w.open - {w.ws.value} else w.open, authenticated := false, heard := false)
  }

  /** HELLO could not be sent: drop the socket as our own close. */
  function GiveUpHello(s: Link): (r: Link)
    requires s.wire.ws.Some? && !s.connecting && !s.wire.authenticated
    ensures Sound(s) ==> Sound(r)
    ensures Neat(s, r)
    ensures Calm(s, r) && !r.connecting && Live(r) && (r.disposed ==> r.wire.ws.None?) && BecomesDue(s, r)
    ensures r.wire.ws.Some? ==> r.wire.heard
    ensures NewWaits(s, r)
    decreases |s.script| + |s.late|, 6
  {
    var s1 := Notify(s, ErrorRaised(HelloNotSent));
    ScheduleReconnect(Note(s1.(wire := Closed(s1.wire).(ours := true)), ClosedByUs))
  }

  function ConnectNow(s: Link, opening: Opening): (r: Link)
    ensures Sound(s) ==> Sound(r)
    ensures Neat(s, r)
    ensures opening.Opens? && s.wait.slot.None? ==> Busy(r) && r.wait.slot.None?
    ensures !Busy(s) ==> BecomesDue(s, r)
    ensures Tame(s, r)
    ensures NewWaits(s, r)
    decreases |s.script| + |s.late|, 8
  {
    if CanConnect(s) then EndConnect(BeginConnect(s), opening) else s
  }

  // ----- Stopping -----

  /** disconnect(): the handlers are gone at the end of it. */
  function Dispose(s: Link): (r: Link)
    ensures Sound(s) ==> Sound(r)
    ensures Neat(s, r)
    ensures Tame(s, r) && r.disposed && r.wire.ws.None? && r.script == [] && r.late == []
    ensures NewWaits(s, r)
    decreases |s.script| + |s.late|, 6
  {
    Notify(Shut(s), StoppedRaised).(script := [], late := [])
  }

  function Shut(s: Link): (r: Link)
    ensures Sound(s) ==> Sound(r)
    ensures Neat(s, r)
    ensures Calm(s, r) && r.disposed && r.connecting == s.connecting && r.wire.ws.None?
    ensures NewWaits(s, r)
    ensures s.wait.slot.None? ==> r.wait == s.wait
    decreases |s.script| + |s.late|, 5
  {
    var s1 := SetPhase(s.(disposed := true), Stopped);
    DropSocket(CancelTasks(s1))
  }

  function CancelTasks(s: Link): Link {
    s.(wait := Cancel(s.wait), stability := false)
  }

  function DropSocket(s: Link): (r: Link)
    requires s.disposed && !s.stability
    ensures Sound(s) ==> Sound(r)
    ensures Neat(s, r)
    ensures Calm(s, r) && r.disposed && r.connecting == s.connecting && r.wire.ws.None?
    ensures NewWaits(s, r)
    ensures s.wait.slot.None? ==> r.wait == s.wait
    ensures s.wire.ws.Some? && !s.wire.heard ==> r.log == Then(s.log, ClosedByUs)
    decreases |s.script| + |s.late|, 4
  {
    if s.wire.ws.None? then s
    else
      var s1 := Note(s.(wire := Closed(s.wire)), ClosedByUs);
      if s.wire.heard then Notify(s1, Disconnected(true)) else s1
  }
}
