/** What the handlers' answers alone decide (src/agentchatme/_realtime.py:563-565,
    652-727, 1078-1091, 1255-1341): whether a reconnect task is lost track of. No
    timer, socket, counter or verdict is looked at. */
module Answers {
  import opened Wrappers
  import opened Lifecycle
  import opened Connection
  import opened ConnectionLaws

  /** Unconnected, opening or live, or stopped. */
  datatype Place = Down | Up | Gone

  /** `armed`: a reconnect task is known; `lost`: another waits beside it. */
  datatype Side = Side(script: seq<Answer>, late: seq<Answer>, at: Place, phase: Phase, armed: bool, lost: bool)

  // ----- Playing the answers -----

  /** A notification. */
  function Heed(x: Side): (y: Side)
    ensures |y.script| <= |x.script| && |y.late| <= |x.late|
    decreases |x.script| + |x.late|, 0
  {
    if x.script == [] then x
    else
      var y := x.(script := x.script[1..]);
      if x.script[0].Done? then y else Heed(Answered(y, x.script[0]))
  }

  /** The notification of the move to backoff. */
  function HeedLate(x: Side): (y: Side)
    ensures |y.script| <= |x.script| && |y.late| <= |x.late|
    decreases |x.script| + |x.late|, 0
  {
    if x.late == [] then x
    else
      var y := x.(late := x.late[1..]);
      if x.late[0].Done? then y else HeedLate(Answered(y, x.late[0]))
  }

  function Answered(x: Side, a: Answer): (y: Side)
    ensures |y.script| <= |x.script| && |y.late| <= |x.late|
    decreases |x.script| + |x.late|, 3
  {
    match a
    case Connects(opening) => if x.at.Down? then Finish(Begin(x), opening) else x
    case Disconnects => Side([], [], Gone, Stopped, false, x.lost)
    case _ => x
  }

  /** connect() cancels the known task and tells of the move to connecting. */
  function Begin(x: Side): (y: Side)
    ensures |y.script| <= |x.script| && |y.late| <= |x.late|
    decreases |x.script| + |x.late|, 2
  {
    var y := x.(at := Up, armed := false, phase := Connecting);
    if x.phase.Connecting? then y else Heed(y)
  }

  /** The end of a connect(): a failure is told to on_error, then rescheduled. */
  function Finish(x: Side, opening: Opening): (y: Side)
    ensures |y.script| <= |x.script| && |y.late| <= |x.late|
    decreases |x.script| + |x.late|, 2
  {
    match opening
    case Opens => x
    case Refuses => Reschedule(Heed(if x.at.Up? then x.(at := Down) else x))
    case HelloFails =>
      if x.at.Gone? then x
      else
        var y := Heed(x);
        Reschedule(if y.at.Up? then y.(at := Down) else y)
  }

  /** Not with a task known already. */
  function Reschedule(x: Side): (y: Side)
    ensures |y.script| <= |x.script| && |y.late| <= |x.late|
    decreases |x.script| + |x.late|, 1
  {
    if x.at.Down? && !x.armed then
      var y := x.(phase := Phase.Backoff);
      Rearm(if x.phase.Backoff? then y else HeedLate(y))
    else x
  }

  /** The task known by now is not looked at: it is lost. */
  function Rearm(x: Side): Side {
    if x.at.Down? then x.(armed := true, lost := x.lost || x.armed) else x
  }

  // ----- They decide -----

  function StraysOf(w: Wait): set<nat> {
    w.timers.Keys - (if w.slot.Some? then {w.slot.value} else {})
  }

  function SideOf(s: Link): Side {
    Side(s.script, s.late, if s.disposed then Gone else if Busy(s) then Up else Down, s.phase,
         s.wait.slot.Some?, StraysOf(s.wait) != {})
  }

  lemma {:induction false} ActSide(s: Link)
    requires Sound(s) && s.plan.reconnect
    ensures SideOf(Act(s)) == Heed(SideOf(s))
    decreases |s.script| + |s.late|, 0
  {
    if s.script != [] {
      var s1 := s.(script := s.script[1..]);
      if !s.script[0].Done? {
        DoSide(s1, s.script[0]);
        ActSide(Do(s1, s.script[0]));
      }
    }
  }

  lemma {:induction false} ActLateSide(s: Link)
    requires Sound(s) && s.plan.reconnect
    ensures SideOf(ActLate(s)) == HeedLate(SideOf(s))
    decreases |s.script| + |s.late|, 0
  {
    if s.late != [] {
      var s1 := s.(late := s.late[1..]);
      if !s.late[0].Done? {
        DoSide(s1, s.late[0]);
        ActLateSide(Do(s1, s.late[0]));
      }
    }
  }

  lemma {:induction false} DoSide(s: Link, a: Answer)
    requires Sound(s) && s.plan.reconnect
    ensures SideOf(Do(s, a)) == Answered(SideOf(s), a)
    decreases |s.script| + |s.late|, 6
  {
    match a
    case Connects(opening) => if CanConnect(s) { ConnectSide(s, opening); }
    case Disconnects => DisposeSide(s);
    case _ =>
  }

  lemma {:induction false} NotifySide(s: Link, ev: Event)
    requires Sound(s) && s.plan.reconnect && Plain(ev)
    ensures SideOf(Notify(s, ev)) == if ev == StateChanged(Phase.Backoff) then HeedLate(SideOf(s)) else Heed(SideOf(s))
    decreases |s.script| + |s.late|, 1
  {
    if ev == StateChanged(Phase.Backoff) { ActLateSide(Note(s, ev)); } else { ActSide(Note(s, ev)); }
  }

  lemma {:induction false} ConnectSide(s: Link, opening: Opening)
    requires Sound(s) && s.plan.reconnect && CanConnect(s)
    ensures SideOf(ConnectNow(s, opening)) == Finish(Begin(SideOf(s)), opening)
    decreases |s.script| + |s.late|, 5
  {
    BeginSide(s);
    EndSide(BeginConnect(s), opening);
  }

  lemma {:induction false} BeginSide(s: Link)
    requires Sound(s) && s.plan.reconnect && CanConnect(s)
    ensures SideOf(BeginConnect(s)) == Begin(SideOf(s))
    decreases |s.script| + |s.late|, 2
  {
    var s1 := s.(connecting := true, wait := Cancel(s.wait));
    if !s1.phase.Connecting? { NotifySide(s1.(phase := Connecting), StateChanged(Connecting)); }
  }

  lemma {:induction false} EndSide(s: Link, opening: Opening)
    requires Sound(s) && s.plan.reconnect && s.connecting
    ensures SideOf(EndConnect(s, opening)) == Finish(SideOf(s), opening)
    decreases |s.script| + |s.late|, 4
  {
    var s1 := s.(connecting := false);
    if opening.Refuses? {
      NotifySide(s1, ErrorRaised(ConnectFailed));
      ScheduleSide(Notify(s1, ErrorRaised(ConnectFailed)));
    } else if opening.HelloFails? && !s.disposed {
      GiveUpSide(OpenSocket(s));
    }
  }

  lemma {:induction false} GiveUpSide(s: Link)
    requires Sound(s) && s.plan.reconnect && s.wire.ws.Some? && !s.connecting && !s.wire.authenticated && !s.disposed
    ensures SideOf(GiveUpHello(s)) == Finish(SideOf(s), HelloFails)
    decreases |s.script| + |s.late|, 3
  {
    NotifySide(s, ErrorRaised(HelloNotSent));
    var s1 := Notify(s, ErrorRaised(HelloNotSent));
    ScheduleSide(Note(s1.(wire := Closed(s1.wire).(ours := true)), ClosedByUs));
  }

  lemma {:induction false} ScheduleSide(s: Link)
    requires Sound(s) && s.plan.reconnect && !s.connecting
    ensures SideOf(ScheduleReconnect(s)) == Reschedule(SideOf(s))
    decreases |s.script| + |s.late|, 2
  {
    if !Busy(s) && s.wait.slot.None? {
      var s1 := Tried(s).(phase := Phase.Backoff);
      if !s.phase.Backoff? { NotifySide(s1, StateChanged(Phase.Backoff)); }
    }
  }

  /** A stopped client loses nothing any more. */
  lemma {:induction false} GoneHeed(x: Side)
    requires x.at.Gone? && x.phase.Stopped?
    ensures var y := Heed(x); y.at.Gone? && y.phase.Stopped? && y.lost == x.lost && (!x.armed ==> !y.armed)
    decreases |x.script|
  {
    if x.script != [] && !x.script[0].Done? { GoneHeed(Answered(x.(script := x.script[1..]), x.script[0])); }
  }

  lemma {:induction false} GoneNotify(s: Link, ev: Event)
    requires Sound(s) && s.plan.reconnect && Plain(ev) && ev != StateChanged(Phase.Backoff) && s.disposed
    ensures var r := Notify(s, ev); SideOf(r).lost == SideOf(s).lost && (s.wait.slot.None? ==> r.wait.slot.None?)
    decreases |s.script| + |s.late|, 2
  {
    NotifySide(s, ev);
    GoneHeed(SideOf(s));
  }

  lemma {:induction false} DisposeSide(s: Link)
    requires Sound(s) && s.plan.reconnect
    ensures SideOf(Dispose(s)) == Side([], [], Gone, Stopped, false, SideOf(s).lost)
    decreases |s.script| + |s.late|, 5
  {
    ShutSide(s);
    GoneNotify(Shut(s), StoppedRaised);
  }

  lemma {:induction false} ShutSide(s: Link)
    requires Sound(s) && s.plan.reconnect
    ensures SideOf(Shut(s)).lost == SideOf(s).lost && Shut(s).wait.slot.None?
    decreases |s.script| + |s.late|, 4
  {
    StoppedSide(s);
    var s1 := SetPhase(s.(disposed := true), Stopped);
  }

  lemma {:induction false} StoppedSide(s: Link)
    requires Sound(s) && s.plan.reconnect
    ensures SideOf(SetPhase(s.(disposed := true), Stopped)).lost == SideOf(s).lost
    decreases |s.script| + |s.late|, 3
  {
    if !s.phase.Stopped? { GoneNotify(s.(disposed := true, phase := Stopped), StateChanged(Stopped)); }
  }

  // ----- The answers to one event -----

  /** An event played out. `rejected` and `first` say whether a close is a
      rejection, and the first of its run. */
  function Played(x: Side, input: Input, rejected: bool, first: bool): Side {
    match input
    case Call => if x.at.Down? then Begin(x) else x
    case Transport(opening) => Finish(x, opening)
    case Hello => Heed(Moved(x, Ready))
    case Ends(_) => Closing(Heed(x.(at := Down)), rejected, first)
    case Trip => Heed(x)
    case Fire(_) => if x.at.Down? then Begin(x.(armed := false)) else x.(armed := false)
    case Stop => Side([], [], Gone, Stopped, false, x.lost)
    case _ => x
  }

  /** A move to a state other than backoff, told when it is one. */
  function Moved(x: Side, phase: Phase): Side {
    if x.phase == phase then x else Heed(x.(phase := phase))
  }

  function Closing(x: Side, rejected: bool, first: bool): Side {
    if x.at.Gone? then x
    else if !rejected then Reschedule(x)
    else
      var y := Moved(x, Phase.Blocked);
      var z := Heed(if first then Heed(y) else y);
      if z.at.Down? then z.(armed := true) else z
  }

  function PlayedTurn(s: Link, turn: Turn): Side {
    Played(SideOf(Heard(s, turn)), turn.input,
           turn.input.Ends? && Rejection(s, turn.input.close), !s.verdict.announced)
  }

  lemma {:induction false} MovedSide(s: Link, phase: Phase)
    requires Sound(s.(phase := phase)) && s.plan.reconnect && phase != Phase.Backoff
    ensures SideOf(SetPhase(s, phase)) == Moved(SideOf(s), phase)
  {
    if s.phase != phase { NotifySide(s.(phase := phase), StateChanged(phase)); }
  }

  lemma {:induction false} HelloSide(s: Link)
    requires Sound(s) && s.plan.reconnect && s.wire.ws.Some? && !s.disposed
    ensures SideOf(AcceptHello(s)) == Heed(Moved(SideOf(s), Ready))
  {
    MovedSide(Authenticated(s), Ready);
    NotifySide(SetPhase(Authenticated(s), Ready), Connected);
  }

  lemma {:induction false} DroppedSide(s: Link, close: Close)
    requires Sound(s) && s.plan.reconnect && s.wire.ws.Some? && !s.disposed
    ensures SideOf(Drop(s, close)) == Heed(SideOf(s).(at := Down))
  {
    var s1 := Note(s.(wire := Closed(s.wire).(ours := false), stability := false), SocketEnded(close));
    NotifySide(s1, Disconnected(s.wire.ours));
  }

  lemma {:induction false} BlockedSide(s: Link, close: Close)
    requires Sound(s) && s.plan.reconnect && !s.disposed && !s.connecting && !s.wire.authenticated
    ensures SideOf(EnterBlocked(s, close)) == Closing(SideOf(s), true, !s.verdict.announced)
  {
    MovedSide(s.(verdict := Verdict(Some(close), true)), Phase.Blocked);
    TellSide(Blame(s, close), !s.verdict.announced);
  }

  lemma {:induction false} TellSide(s: Link, first: bool)
    requires Sound(s) && s.plan.reconnect
    ensures var z := Heed(if first then Heed(SideOf(s)) else SideOf(s));
      SideOf(TellAndWait(s, first)) == if z.at.Down? then z.(armed := true) else z
  {
    AnnounceSide(s, first);
  }

  lemma {:induction false} AnnounceSide(s: Link, first: bool)
    requires Sound(s) && s.plan.reconnect
    ensures SideOf(Announce(s, first)) == Heed(if first then Heed(SideOf(s)) else SideOf(s))
  {
    if first { ReportSide(s, ErrorRaised(AuthRejected)); }
    ReportSide(if first then Report(s, ErrorRaised(AuthRejected)) else s, BlockedRaised);
  }

  lemma {:induction false} ReportSide(s: Link, ev: Event)
    requires Sound(s) && s.plan.reconnect && (ev == ErrorRaised(AuthRejected) || ev == BlockedRaised)
    ensures SideOf(Report(s, ev)) == Heed(SideOf(s))
  {
    ActSide(Note(s, ev));
  }

  lemma {:induction false} CloseSide(s: Link, close: Close)
    requires Sound(s) && s.plan.reconnect && s.wire.ws.Some? && !s.disposed
    ensures SideOf(HandleClose(s, close)) ==
      Closing(Heed(SideOf(s).(at := Down)), Rejection(s, close), !s.verdict.announced)
  {
    DroppedSide(s, close);
    var s1 := Drop(s, close);
    if !s1.disposed {
      if Rejection(s, close) { BlockedSide(s1, close); } else { ScheduleSide(s1); }
    }
  }

  lemma {:induction false} FireSide(s: Link, id: nat)
    requires Rested(s) && Tidy(s) && s.plan.reconnect && id in s.wait.timers
    ensures var x := SideOf(s);
      SideOf(ReconnectAfter(s, id)) == if x.at.Down? then Begin(x.(armed := false)) else x.(armed := false)
  {
    var s1 := RanOut(s, id);
    assert s.wait.timers.Keys == {id};
    assert s1.wait.timers.Keys == {};
    if CanConnect(s1) { BeginSide(s1); }
  }

  /** The answers decide every step: starting tidy, it ends as they play out. */
  lemma {:induction false} NextSide(s: Link, turn: Turn)
    requires Rested(s) && Tidy(s) && s.plan.reconnect && Enabled(s, turn.input)
    ensures SideOf(Next(s, turn)) == PlayedTurn(s, turn)
  {
    var s0 := Heard(s, turn);
    match turn.input
    case Call => if CanConnect(s0) { BeginSide(s0); }
    case Transport(opening) => EndSide(s0, opening);
    case Hello => HelloSide(s0);
    case Ends(close) => CloseSide(s0, close);
    case Trip => NotifySide(s0, ErrorRaised(TimedOut));
    case Fire(id) => FireSide(s0, id);
    case Stop => DisposeSide(s0);
    case _ =>
  }
}
