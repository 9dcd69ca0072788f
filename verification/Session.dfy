/** The lifecycle half of the client as it is: methods that update fields and call
    handlers, which call back in (src/agentchatme/_realtime.py:631-809, 920-971,
    1017-1091, 1255-1356, 1459-1518). Every method is proved to take the state
    where the step function of the same name takes it. */
module Session {
  import opened Wrappers
  import opened Backoff
  import Connection
  import opened Lifecycle

  class RealtimeConnection {
    const plan: Plan
    var phase: Phase
    var connecting: bool
    var disposed: bool
    var ws: Option<nat>
    var open: set<nat>
    var socketsMade: nat
    var authenticated: bool
    var closeOurs: bool
    var heard: bool
    var slot: Option<nat>
    var timers: map<nat, Timer>
    var timersMade: nat
    var attempts: nat
    var stability: bool
    var blocked: Option<Close>
    var announced: bool
    var time: Time
    var script: seq<Answer>
    var late: seq<Answer>
    ghost var log: Log

    ghost function State(): Link
      reads this
    {
      Link(plan, phase, connecting, disposed, Wire(ws, open, socketsMade, authenticated, closeOurs, heard),
           Wait(slot, timers, timersMade), attempts, stability, Verdict(blocked, announced), time, script, late, log)
    }

    constructor (plan: Plan)
      ensures State() == Connection.Initial(plan)
    {
      this.plan := plan;
      phase, connecting, disposed := Idle, false, false;
      ws, open, socketsMade, authenticated, closeOurs, heard := None, {}, 0, false, false, false;
      slot, timers, timersMade := None, map[], 0;
      attempts, stability, blocked, announced := 0, false, None, false;
      time, script, late, log := Time(0, 0), [], [], Nothing;
    }

    // ----- Notifications -----

    /** Call the handlers one by one; each may call back in. */
    method Act()
      modifies this
      ensures State() == Lifecycle.Act(old(State()))
      decreases |script| + |late|, 0
    {
      while script != [] && !script[0].Done?
        invariant |script| + |late| <= old(|script| + |late|)
        invariant Lifecycle.Act(State()) == Lifecycle.Act(old(State()))
        decreases |script|
      {
        var answer := script[0];
        script := script[1..];
        Do(answer);
      }
      if script != [] { script := script[1..]; }
    }

    /** The same, of those told of the move to backoff. */
    method ActLate()
      modifies this
      ensures State() == Lifecycle.ActLate(old(State()))
      decreases |script| + |late|, 1
    {
      while late != [] && !late[0].Done?
        invariant |script| + |late| <= old(|script| + |late|)
        invariant Lifecycle.ActLate(State()) == Lifecycle.ActLate(old(State()))
        decreases |late|
      {
        var answer := late[0];
        late := late[1..];
        Do(answer);
      }
      if late != [] { late := late[1..]; }
    }

    method Do(answer: Answer)
      modifies this
      ensures State() == Lifecycle.Do(old(State()), answer)
      decreases |script| + |late|, 9
    {
      match answer
      case Connects(opening) => ConnectNow(opening);
      case Disconnects => Dispose();
      case _ =>
    }

    ghost method Note(ev: Event)
      modifies this
      ensures State() == Lifecycle.Note(old(State()), ev)
    {
      log := Then(log, ev);
    }

    method Notify(ev: Event)
      requires Plain(ev)
      modifies this
      ensures State() == Lifecycle.Notify(old(State()), ev)
      decreases |script| + |late|, 2
    {
      Note(ev);
      if ev == StateChanged(Backoff) { ActLate(); } else { Act(); }
    }

    method SetPhase(to: Phase)
      modifies this
      ensures State() == Lifecycle.SetPhase(old(State()), to)
      decreases |script| + |late|, 3
    {
      if phase != to {
        phase := to;
        Notify(StateChanged(to));
      }
    }

    // ----- Reconnecting -----

    method Arm(delay: nat, kind: Kind)
      modifies this
      ensures State() == Lifecycle.Arm(old(State()), delay, kind)
    {
      timers := timers[timersMade := Timer(time.clock + delay, kind)];
      slot, timersMade := Some(timersMade), timersMade + 1;
    }

    method CancelSlot()
      modifies this
      ensures State() == old(State()).(wait := Cancel(old(State()).wait))
    {
      if slot.Some? { timers := timers - {slot.value}; }
      slot := None;
    }

    method ScheduleReconnect()
      modifies this
      ensures State() == Lifecycle.ScheduleReconnect(old(State()))
      decreases |script| + |late|, 5
    {
      if disposed || connecting || ws.Some? { return; }
      if !plan.reconnect {
        if phase != Phase.Blocked { SetPhase(Idle); }
        return;
      }
      if slot.Some? && slot.value in timers { return; }
      BackOff();
    }

    method BackOff()
      requires !Busy(State()) && plan.reconnect && !SlotPending(State().wait)
      modifies this
      ensures State() == Lifecycle.BackOff(old(State()))
      decreases |script| + |late|, 4
    {
      Try();
      var attempt := attempts;
      SetPhase(Backoff);
      ArmRetry(attempt);
    }

    method Try()
      modifies this
      ensures State() == Tried(old(State()))
    {
      attempts := attempts + 1;
    }

    method ArmRetry(attempt: nat)
      requires attempt >= 1
      modifies this
      ensures State() == Lifecycle.ArmRetry(old(State()), attempt)
    {
      if !(disposed || connecting || ws.Some?) {
        Arm(ReconnectDelay(plan.base, plan.cap, attempt, plan.draws(timersMade)), Retry(attempt));
      }
    }

    method BeginConnect()
      requires CanConnect(State())
      modifies this
      ensures State() == Lifecycle.BeginConnect(old(State()))
      decreases |script| + |late|, 4
    {
      CancelSlot();
      connecting := true;
      SetPhase(Connecting);
    }

    method EndConnect(opening: Opening)
      requires connecting && ws.None? && !phase.Ready?
      modifies this
      ensures State() == Lifecycle.EndConnect(old(State()), opening)
      decreases |script| + |late|, 7
    {
      if opening.Refuses? {
        connecting := false;
        Notify(ErrorRaised(ConnectFailed));
        ScheduleReconnect();
      } else if disposed {
        connecting := false;
      } else {
        OpenSocket();
        if opening.HelloFails? { GiveUpHello(); } else { heard := ws.Some?; }
      }
    }

    method OpenSocket()
      requires connecting && ws.None? && !phase.Ready?
      modifies this
      ensures State() == Lifecycle.OpenSocket(old(State()))
    {
      connecting := false;
      Attach();
      Note(SocketOpened);
    }

    method Attach()
      modifies this
      ensures State() == old(State()).(wire := Opened(old(State()).wire))
    {
      ResetFlags();
      ws, open, socketsMade := Some(socketsMade), open + {socketsMade}, socketsMade + 1;
    }

    method ResetFlags()
      modifies this
      ensures var wire := old(State()).wire.(authenticated := false, ours := false, heard := false);
        State() == old(State()).(wire := wire)
    {
      authenticated, closeOurs, heard := false, false, false;
    }

    method CloseSocket()
      modifies this
      ensures State() == old(State()).(wire := Closed(old(State()).wire))
    {
      if ws.Some? { open := open - {ws.value}; }
      ws, authenticated, heard := None, false, false;
    }

    method GiveUpHello()
      requires ws.Some? && !connecting && !authenticated
      modifies this
      ensures State() == Lifecycle.GiveUpHello(old(State()))
      decreases |script| + |late|, 6
    {
      Notify(ErrorRaised(HelloNotSent));
      CloseSocket();
      closeOurs := true;
      Note(ClosedByUs);
      ScheduleReconnect();
    }

    method ConnectNow(opening: Opening)
      modifies this
      ensures State() == Lifecycle.ConnectNow(old(State()), opening)
      decreases |script| + |late|, 8
    {
      if disposed || connecting || ws.Some? { return; }
      BeginConnect();
      EndConnect(opening);
    }

    // ----- Stopping -----

    method Dispose()
      modifies this
      ensures State() == Lifecycle.Dispose(old(State()))
      decreases |script| + |late|, 6
    {
      Shut();
      Notify(StoppedRaised);
      script, late := [], [];
    }

    method Shut()
      modifies this
      ensures State() == Lifecycle.Shut(old(State()))
      decreases |script| + |late|, 5
    {
      disposed := true;
      SetPhase(Stopped);
      CancelTasks();
      DropSocket();
    }

    method CancelTasks()
      modifies this
      ensures State() == Lifecycle.CancelTasks(old(State()))
    {
      CancelSlot();
      stability := false;
    }

    method DropSocket()
      requires disposed && !stability
      modifies this
      ensures State() == Lifecycle.DropSocket(old(State()))
      decreases |script| + |late|, 4
    {
      if ws.Some? {
        var hears := heard;
        CloseSocket();
        Note(ClosedByUs);
        if hears { Notify(Disconnected(true)); }
      }
    }

    // ----- Events -----

    method AcceptHello()
      requires ws.Some? && !disposed
      modifies this
      ensures State() == Connection.AcceptHello(old(State()))
    {
      ClearVerdict();
      Authenticate();
      SetPhase(Ready);
      Notify(Connected);
      heard := ws.Some?;
    }

    method ClearVerdict()
      modifies this
      ensures State() == old(State()).(verdict := Verdict(None, false))
    {
      blocked, announced := None, false;
    }

    method Authenticate()
      requires State().verdict == Verdict(None, false)
      modifies this
      ensures State() == Connection.Authenticated(old(State()))
    {
      authenticated, stability, heard := true, true, false;
      Note(HelloAccepted);
    }

    method HandleClose(close: Close)
      requires ws.Some? && !disposed && !connecting
      modifies this
      ensures State() == Connection.HandleClose(old(State()), close)
    {
      var rejected := !closeOurs && !authenticated && Rejects(close);
      Drop(close);
      if disposed { return; }
      if rejected { EnterBlocked(close); } else { ScheduleReconnect(); }
    }

    method Drop(close: Close)
      requires ws.Some? && !disposed
      modifies this
      ensures State() == Connection.Drop(old(State()), close)
    {
      var ours := closeOurs;
      CloseSocket();
      closeOurs, stability := false, false;
      Note(SocketEnded(close));
      Notify(Disconnected(ours));
    }

    method EnterBlocked(close: Close)
      requires !disposed && !connecting && !authenticated
      modifies this
      ensures State() == Connection.EnterBlocked(old(State()), close)
    {
      var first := !announced;
      SetVerdict(close);
      SetPhase(Phase.Blocked);
      TellAndWait(first);
    }

    method SetVerdict(close: Close)
      modifies this
      ensures State() == old(State()).(verdict := Verdict(Some(close), true))
    {
      blocked, announced := Some(close), true;
    }

    method TellAndWait(first: bool)
      modifies this
      ensures State() == Connection.TellAndWait(old(State()), first)
    {
      if first {
        Note(ErrorRaised(AuthRejected));
        Act();
      }
      Note(BlockedRaised);
      Act();
      SlowDown();
    }

    method SlowDown()
      modifies this
      ensures State() == Connection.SlowDown(old(State()))
    {
      if plan.reconnect && !(disposed || connecting || ws.Some?) {
        var delay := AuthRetryDelay(plan.draws(timersMade));
        CancelSlot();
        Arm(delay, SlowRetry);
      }
    }

    method GiveUpSocket()
      requires ws.Some? && !disposed
      modifies this
      ensures State() == Connection.GiveUpSocket(old(State()))
    {
      Notify(ErrorRaised(TimedOut));
      closeOurs := true;
      Note(ClosedByUs);
    }

    method MarkStable()
      requires stability
      modifies this
      ensures State() == Connection.MarkStable(old(State()))
    {
      stability := false;
      if !disposed && authenticated { attempts := 0; }
    }

    method RanOut(id: nat)
      requires id in timers
      modifies this
      ensures State() == Connection.RanOut(old(State()), id)
    {
      if timers[id].kind.Retry? { time := time.(fired := time.fired + 1); }
      timers := timers - {id};
      slot := None;
    }

    method ReconnectAfter(id: nat)
      requires id in timers
      modifies this
      ensures State() == Connection.ReconnectAfter(old(State()), id)
    {
      RanOut(id);
      if !(disposed || connecting || ws.Some?) { BeginConnect(); }
    }

    /** The answers the handlers will give; a stopped client has no handlers. */
    method Hear(turn: Connection.Turn)
      modifies this
      ensures State() == Connection.Heard(old(State()), turn)
    {
      if disposed { script, late := [], []; } else { script, late := turn.script, turn.late; }
    }

    /** One event with the answers its handlers will give: the step of every run
        the laws speak of. */
    method HandleTurn(turn: Connection.Turn)
      requires Connection.Rested(State()) && Connection.Enabled(State(), turn.input)
      modifies this
      ensures State() == Connection.Next(old(State()), turn)
    {
      Hear(turn);
      match turn.input
      case Call => if !(disposed || connecting || ws.Some?) { BeginConnect(); }
      case Transport(opening) => EndConnect(opening);
      case Hello => AcceptHello();
      case Ends(close) => HandleClose(close);
      case Trip => GiveUpSocket();
      case Stable => MarkStable();
      case Fire(id) => ReconnectAfter(id);
      case Passes(ms) => time := time.(clock := time.clock + ms);
      case Stop => Dispose();
    }
  }
}
