/** Whole runs of the connection lifecycle: never dead, never double-connected,
    blocked exactly when rejected, slowed down while flapping. */
module ConnectionLaws {
  import opened Wrappers
  import opened Backoff
  import opened Lifecycle
  import opened Connection

  /** Turns whose event cannot happen are skipped. */
  function Run(plan: Plan, turns: seq<Turn>): (r: Link)
    ensures Rested(r) && r.plan == plan
  {
    if turns == [] then Initial(plan) else Took(Run(plan, turns[..|turns| - 1]), turns[|turns| - 1])
  }

  function Took(s: Link, turn: Turn): (r: Link)
    requires Rested(s)
    ensures Rested(r) && r.plan == s.plan
  {
    if Enabled(s, turn.input) then Next(s, turn) else s
  }

  predicate Called(turns: seq<Turn>) {
    exists i :: 0 <= i < |turns| && turns[i].input.Call?
  }

  /** No handler told of a move to backoff reconnects and fails; all others may. With
      reconnects off there are no such moves. */
  ghost predicate AllFriendly(plan: Plan, turns: seq<Turn>) {
    plan.reconnect ==> forall i :: 0 <= i < |turns| ==> Friendly(turns[i].late)
  }

  // ----- One way forward -----

  /** Left unconnected, the client knows of a waiting reconnect task. */
  ghost predicate Knows(s: Link) {
    s.plan.reconnect ==> Busy(s) || s.wait.slot.Some?
  }

  lemma TookKnows(s: Link, turn: Turn)
    requires Rested(s) && (Knows(s) || turn.input.Call?)
    ensures Knows(Took(s, turn))
  {
    if Enabled(s, turn.input) {
      match turn.input
      case Transport(opening) => assert BecomesDue(Heard(s, turn), EndConnect(Heard(s, turn), opening));
      case Ends(close) => assert Next(s, turn) == HandleClose(Heard(s, turn), close);
      case _ =>
    }
  }

  lemma {:induction false} RunKnows(plan: Plan, turns: seq<Turn>)
    requires Called(turns)
    ensures Knows(Run(plan, turns))
  {
    var n := |turns| - 1;
    if !turns[n].input.Call? {
      var i :| 0 <= i < |turns| && turns[i].input.Call?;
      assert turns[..n][i].input.Call?;
      RunKnows(plan, turns[..n]);
    }
    TookKnows(Run(plan, turns[..n]), turns[n]);
  }

  lemma {:induction false} RunTidy(plan: Plan, turns: seq<Turn>)
    requires AllFriendly(plan, turns)
    ensures Tidy(Run(plan, turns))
  {
    if turns != [] { RunTidy(plan, turns[..|turns| - 1]); }
  }

  lemma {:induction false} RunExact(plan: Plan, turns: seq<Turn>)
    ensures Exact(Run(plan, turns))
  {
    if turns != [] { RunExact(plan, turns[..|turns| - 1]); }
  }

  function Ways(s: Link): nat {
    (if s.connecting then 1 else 0) + |s.wire.open| + |s.wait.timers|
  }

  /** Whatever the handlers do: never two transports, and after the first
      connect() never dead. */
  lemma {:induction false} NeverDeadNeverDouble(plan: Plan, turns: seq<Turn>)
    ensures var s := Run(plan, turns);
      && (if s.connecting then 1 else 0) + |s.wire.open| <= 1
      && (plan.reconnect && Called(turns) && !s.disposed ==>
            Ways(s) >= 1 && (s.connecting || s.wire.open != {} || s.wait.slot.Some?))
  {
    var s := Run(plan, turns);
    if Called(turns) { RunKnows(plan, turns); }
    assert s.wait.timers != map[] ==> |s.wait.timers| >= 1;
  }

  /** Unless a handler told of a move to backoff reconnects and fails: a transport
      opening, a live socket or one waiting timer, and after disconnect() nothing. */
  lemma {:induction false} ExactlyOneWay(plan: Plan, turns: seq<Turn>)
    requires AllFriendly(plan, turns)
    ensures var s := Run(plan, turns);
      && (!s.disposed ==> Ways(s) <= 1)
      && (!s.disposed && plan.reconnect && Called(turns) ==> Ways(s) == 1)
      && (s.disposed ==> s.wire.open == {} && s.wait.timers == map[])
  {
    var s := Run(plan, turns);
    RunTidy(plan, turns);
    NeverDeadNeverDouble(plan, turns);
    assert |s.wait.timers| == |s.wait.timers.Keys|;
    if s.disposed { assert s.wait.timers.Keys == {}; }
  }

  /** The state the client reports is the state it is in. */
  lemma StateIsTrue(plan: Plan, turns: seq<Turn>)
    ensures var s := Run(plan, turns);
      && (s.phase.Stopped? <==> s.disposed)
      && (s.phase.Ready? <==> s.wire.authenticated)
      && (s.connecting && !s.disposed ==> s.phase.Connecting?)
      && (s.stability ==> s.wire.authenticated)
      && (s.wait.slot.Some? && !s.disposed ==>
            && s.wait.slot.value in s.wait.timers && !s.connecting && s.wire.open == {}
            && (s.phase.Backoff? || s.phase.Blocked?))
  {
  }

  /** Whatever the handlers do: cut off but not stopped, the client says backoff or
      blocked, and the reconnect task it knows of is waiting. */
  lemma {:induction false} CutOffIsReported(plan: Plan, turns: seq<Turn>)
    requires plan.reconnect && Called(turns)
    ensures var s := Run(plan, turns);
      !s.disposed && !s.connecting && s.wire.open == {} ==>
        && (s.phase.Backoff? || s.phase.Blocked?)
        && s.wait.slot.Some? && s.wait.slot.value in s.wait.timers
  {
    RunKnows(plan, turns);
  }

  // ----- Blocked -----

  /** The blocked verdict is the latest rejection no hello.ok came after;
      on_error heard once of every run of rejections, `blocked` of every one. */
  lemma {:induction false} BlockedIsExact(plan: Plan, turns: seq<Turn>)
    ensures var s := Run(plan, turns); var c := Read(s.log).score;
      !s.disposed ==> s.verdict.blocked == c.standing && c.errors == c.runs && c.notices == c.rejections
  {
    RunExact(plan, turns);
  }

  /** A rejecting close whose on_disconnect handlers stop the client, with a reason
      that is not the one recorded. */
  predicate Misses(s: Link, turn: Turn) {
    && turn.input.Ends? && s.wire.ws.Some? && !s.disposed
    && Rejection(Heard(s, turn), turn.input.close) && Drop(Heard(s, turn), turn.input.close).disposed
    && s.verdict.blocked != Some(turn.input.close)
  }

  predicate Current(s: Link) {
    s.verdict.blocked == Read(s.log).score.standing
  }

  lemma CloseCurrent(s: Link, turn: Turn)
    requires Rested(s) && Exact(s) && !s.disposed && s.wire.ws.Some? && turn.input.Ends?
    ensures Current(Took(s, turn)) <==> !Misses(s, turn)
  {
    var s0, close := Heard(s, turn), turn.input.close;
    assert Exact(s0) && Took(s, turn) == AfterClose(Drop(s0, close), close, Rejection(s0, close));
  }

  lemma HelloCurrent(s: Link)
    requires Rested(s) && !s.disposed && s.wire.ws.Some?
    ensures Current(AcceptHello(s))
  {
    var s1 := SetPhase(Authenticated(s), Ready);
    assert Calm(Authenticated(s).(phase := Ready), s1) && Calm(s1, Notify(s1, Connected));
  }

  lemma TripCurrent(s: Link)
    requires Rested(s) && Current(s) && !s.disposed && s.wire.ws.Some?
    ensures Current(GiveUpSocket(s))
  {
    assert Calm(s, Notify(s, ErrorRaised(TimedOut)));
  }

  lemma FireCurrent(s: Link, id: nat)
    requires Rested(s) && Current(s) && id in s.wait.timers
    ensures Current(ReconnectAfter(s, id))
  {
    if CanConnect(RanOut(s, id)) { assert Calm(RanOut(s, id), BeginConnect(RanOut(s, id))); }
  }

  lemma TookCurrent(s: Link, turn: Turn)
    requires Rested(s) && Exact(s) && !s.disposed
    ensures Current(Took(s, turn)) <==> !Misses(s, turn)
  {
    if turn.input.Ends? && s.wire.ws.Some? {
      CloseCurrent(s, turn);
    } else if Enabled(s, turn.input) {
      var s0 := Heard(s, turn);
      match turn.input
      case Transport(opening) => assert Calm(s0, EndConnect(s0, opening));
      case Hello => HelloCurrent(s0);
      case Trip => TripCurrent(s0);
      case Fire(id) => FireCurrent(s0, id);
      case Call => if CanConnect(s0) { assert Calm(s0, BeginConnect(s0)); }
      case Stop => assert Calm(s0, Dispose(s0));
      case _ =>
    }
  }

  /** A stopped client's reason and its log's stay what they were. */
  lemma StoppedCurrent(s: Link, turn: Turn)
    requires Rested(s) && s.disposed
    ensures Took(s, turn).verdict == s.verdict && (Current(Took(s, turn)) <==> Current(s))
  {
    if turn.input.Transport? && s.connecting {
      assert Calm(Heard(s, turn), EndConnect(Heard(s, turn), turn.input.opening));
    }
  }

  /** No turn of a run missed a rejection. */
  predicate NoneMissed(plan: Plan, turns: seq<Turn>) {
    turns == [] ||
    var n := |turns| - 1;
    NoneMissed(plan, turns[..n]) && !Misses(Run(plan, turns[..n]), turns[n])
  }

  /** Stopped or not, blocked_reason is the latest rejection no hello.ok came after,
      unless the handlers told of that close stopped the client. */
  lemma {:induction false} ReasonIsExact(plan: Plan, turns: seq<Turn>)
    ensures Current(Run(plan, turns)) <==> NoneMissed(plan, turns)
  {
    if turns != [] {
      var n := |turns| - 1;
      ReasonIsExact(plan, turns[..n]);
      RunExact(plan, turns[..n]);
      ReasonStep(Run(plan, turns[..n]), turns[n]);
    }
  }

  lemma ReasonStep(s: Link, turn: Turn)
    requires Rested(s) && Exact(s)
    ensures Current(Took(s, turn)) <==> Current(s) && !Misses(s, turn)
  {
    if s.disposed { StoppedCurrent(s, turn); } else { TookCurrent(s, turn); }
  }

  /** No event but a server's rejection of the handshake sets or changes a verdict. */
  lemma OnlyRejectionsBlock(s: Link, turn: Turn)
    requires Rested(s) && Enabled(s, turn.input)
    ensures var r := Next(s, turn);
      r.verdict == s.verdict
      || (turn.input.Hello? && r.verdict.blocked == None)
      || (turn.input.Ends? && !s.wire.ours && !s.wire.authenticated && Rejects(turn.input.close)
          && r.verdict.blocked == Some(turn.input.close))
  {
  }

  // ----- Stopping -----

  /** Stopped is for good: no socket, no known timer, and blocked_reason stays as it was. */
  lemma {:induction false} StoppedForGood(plan: Plan, turns: seq<Turn>, more: seq<Turn>)
    requires Run(plan, turns).disposed
    ensures var r := Run(plan, turns + more);
      && r.disposed && r.phase.Stopped? && r.wire.open == {} && r.wait.slot == None
      && r.verdict == Run(plan, turns).verdict
    decreases |more|
  {
    if more == [] {
      assert turns + more == turns;
    } else {
      var n := |more| - 1;
      assert (turns + more)[..|turns| + n] == turns + more[..n];
      StoppedForGood(plan, turns, more[..n]);
      StopStays(Run(plan, turns + more[..n]), more[n]);
    }
  }

  lemma StopStays(s: Link, turn: Turn)
    requires Rested(s) && s.disposed
    ensures Took(s, turn).disposed && Took(s, turn).verdict == s.verdict
  {
    StoppedCurrent(s, turn);
  }
}
