/** Where "never two timers" breaks (src/agentchatme/_realtime.py:563-565, 1255-1293,
    1465-1469): the known reconnect task is looked at before the state handlers are
    told of the backoff, not after them, so one their own connect() left is lost. */
module Orphan {
  import opened Wrappers
  import opened Lifecycle
  import opened Connection
  import opened ConnectionLaws
  import opened Answers

  // ----- Exactly when a timer is lost -----

  /** Do the answers up to the next Done call connect()? */
  predicate CallsConnect(answers: seq<Answer>) {
    answers != [] && !answers[0].Done? && (answers[0].Connects? || CallsConnect(answers[1..]))
  }

  lemma {:induction false} UpStays(x: Side)
    requires !x.at.Down?
    ensures !Heed(x).at.Down? && !HeedLate(x).at.Down?
    decreases |x.script| + |x.late|
  {
    if x.script != [] && !x.script[0].Done? { UpStays(Answered(x.(script := x.script[1..]), x.script[0])); }
    if x.late != [] && !x.late[0].Done? { UpStays(Answered(x.(late := x.late[1..]), x.late[0])); }
  }

  /** A connect() that leaves the client unconnected leaves it with a task. */
  lemma {:induction false} AnsweredDown(x: Side, a: Answer)
    requires Answered(x, a).at.Down?
    ensures if a.Connects? then x.at.Down? ==> Answered(x, a).armed else Answered(x, a) == x
  {
    if a.Connects? && x.at.Down? {
      UpStays(x.(at := Up, armed := false, phase := Connecting));
      FinishDown(Begin(x), a.opening);
    }
  }

  lemma {:induction false} FinishDown(x: Side, opening: Opening)
    requires !x.at.Down? && Finish(x, opening).at.Down?
    ensures Finish(x, opening).armed
  {
    var y := Heed(if opening.Refuses? && x.at.Up? then x.(at := Down) else x);
    var z := if opening.HelloFails? && y.at.Up? then y.(at := Down) else y;
    assert Finish(x, opening) == Reschedule(z);
  }

  /** Whatever the handlers answer: still unconnected after its notification, the
      client has a task then exactly when the notified handlers called connect(). */
  lemma {:induction false} ArmedIffCalled(x: Side)
    requires x.at.Down? && HeedLate(x).at.Down?
    ensures HeedLate(x).armed <==> x.armed || CallsConnect(x.late)
    decreases |x.late|
  {
    if x.late != [] && !x.late[0].Done? {
      var y := Answered(x.(late := x.late[1..]), x.late[0]);
      if !y.at.Down? { UpStays(y); }
      AnsweredDown(x.(late := x.late[1..]), x.late[0]);
      ArmedIffCalled(y);
      if x.late[0].Connects? { StaysArmed(y); }
    }
  }

  lemma {:induction false} StaysArmed(x: Side)
    requires x.at.Down? && x.armed && HeedLate(x).at.Down?
    ensures HeedLate(x).armed
    decreases |x.late|
  {
    if x.late != [] && !x.late[0].Done? {
      var y := Answered(x.(late := x.late[1..]), x.late[0]);
      if !y.at.Down? { UpStays(y); }
      AnsweredDown(x.(late := x.late[1..]), x.late[0]);
      StaysArmed(y);
    }
  }

  /** The move to backoff, with any answers to any notification: a task is lost
      exactly when one was before, or when the handlers told of it called connect()
      and it leaves the client unconnected. */
  lemma {:induction false} BackOffLoses(s: Link)
    requires Sound(s) && !Busy(s) && s.plan.reconnect && s.wait.slot.None? && s.phase != Phase.Backoff
    ensures var m := SetPhase(Tried(s), Phase.Backoff);
      StraysOf(BackOff(s).wait) != {} <==> StraysOf(m.wait) != {} || (!Busy(m) && CallsConnect(s.late))
  {
    var s1 := Tried(s).(phase := Phase.Backoff);
    NotifySide(s1, StateChanged(Phase.Backoff));
    var m := SetPhase(Tried(s), Phase.Backoff);
    assert SideOf(m) == HeedLate(SideOf(s1));
    if !Busy(m) { ArmedIffCalled(SideOf(s1)); }
  }

  lemma {:induction false} TidyIffNoStray(s: Link)
    requires Rested(s)
    ensures Tidy(s) <==> StraysOf(s.wait) == {}
  {
  }

  /** A reconnect task is lost in the k-th turn. */
  predicate LosesAt(plan: Plan, turns: seq<Turn>, k: nat)
    requires k < |turns|
  {
    var s := Run(plan, turns[..k]);
    plan.reconnect && Enabled(s, turns[k].input) && PlayedTurn(s, turns[k]).lost
  }

  lemma {:induction false} TurnTidy(plan: Plan, turns: seq<Turn>, k: nat)
    requires k < |turns| && Tidy(Run(plan, turns[..k]))
    ensures Tidy(Run(plan, turns[..k + 1])) <==> !LosesAt(plan, turns, k)
  {
    var s := Run(plan, turns[..k]);
    assert turns[..k + 1][..k] == turns[..k];
    assert Run(plan, turns[..k + 1]) == Took(s, turns[k]);
    TookTidy(s, turns[k]);
  }

  lemma {:induction false} TookTidy(s: Link, turn: Turn)
    requires Rested(s) && Tidy(s)
    ensures Tidy(Took(s, turn)) <==> !(s.plan.reconnect && Enabled(s, turn.input) && PlayedTurn(s, turn).lost)
  {
    if s.plan.reconnect && Enabled(s, turn.input) {
      NextSide(s, turn);
      TidyIffNoStray(Next(s, turn));
    }
  }

  /** Nothing opening, live or waiting beyond the one there may be. */
  ghost predicate OneWay(s: Link) {
    if s.disposed then s.wait.timers == map[] else Ways(s) <= 1
  }

  ghost predicate OneWayThroughout(plan: Plan, turns: seq<Turn>) {
    forall k :: 0 <= k <= |turns| ==> OneWay(Run(plan, turns[..k]))
  }

  ghost predicate NoneLost(plan: Plan, turns: seq<Turn>) {
    forall k :: 0 <= k < |turns| ==> !LosesAt(plan, turns, k)
  }

  lemma {:induction false} TidyOneWay(s: Link)
    requires Rested(s) && Tidy(s)
    ensures OneWay(s)
  {
    assert |s.wait.timers| == |s.wait.timers.Keys|;
    if s.disposed { assert s.wait.timers.Keys == {}; }
  }

  /** The step that loses a task leaves two ways forward, or one after a stop. */
  lemma {:induction false} LostTwoWays(s: Link, turn: Turn)
    requires Rested(s) && Tidy(s) && !Tidy(Took(s, turn))
    ensures !OneWay(Took(s, turn))
  {
    var r := Took(s, turn);
    TidyIffNoStray(r);
    var id :| id in StraysOf(r.wait);
    assert |r.wait.timers| == |r.wait.timers.Keys|;
    if r.disposed || Busy(r) {
      assert id in r.wait.timers;
      MoreThan(r.wait.timers.Keys, {id});
    } else {
      DownHasTask(s, turn);
      MoreThan(r.wait.timers.Keys, {id, r.wait.slot.value});
    }
  }

  lemma {:induction false} MoreThan(a: set<nat>, b: set<nat>)
    requires b <= a
    ensures |b| <= |a|
  {
    assert a == b + (a - b);
  }

  lemma {:induction false} DownHasTask(s: Link, turn: Turn)
    requires Rested(s) && Tidy(s) && !Tidy(Took(s, turn)) && !Busy(Took(s, turn))
    ensures Took(s, turn).wait.slot.Some?
  {
    var r := Took(s, turn);
    assert s.plan.reconnect && Enabled(s, turn.input);
    var s0 := Heard(s, turn);
    if turn.input.Ends? { assert r == HandleClose(s0, turn.input.close); }
    if turn.input.Transport? { assert r == EndConnect(s0, turn.input.opening); }
  }

  lemma {:induction false} NoneLostTidy(plan: Plan, turns: seq<Turn>, k: nat)
    requires k <= |turns| && forall j :: 0 <= j < k ==> !LosesAt(plan, turns, j)
    ensures Tidy(Run(plan, turns[..k]))
  {
    if k > 0 {
      NoneLostTidy(plan, turns, k - 1);
      TurnTidy(plan, turns, k - 1);
    } else {
      assert turns[..0] == [];
    }
  }

  /** Over all runs and all handlers: there is one way forward throughout, and
      nothing left waiting after disconnect(), exactly when no turn's answers play
      out to a lost task. */
  lemma {:induction false} OneWayExactly(plan: Plan, turns: seq<Turn>)
    ensures OneWayThroughout(plan, turns) <==> NoneLost(plan, turns)
  {
    if NoneLost(plan, turns) {
      forall k | 0 <= k <= |turns| ensures OneWay(Run(plan, turns[..k])) {
        NoneLostTidy(plan, turns, k);
        TidyOneWay(Run(plan, turns[..k]));
      }
    }
    if OneWayThroughout(plan, turns) {
      forall k | 0 <= k < |turns| ensures !LosesAt(plan, turns, k) { NotLost(plan, turns, k); }
    }
  }

  lemma {:induction false} NotLost(plan: Plan, turns: seq<Turn>, k: nat)
    requires k < |turns| && OneWayThroughout(plan, turns)
    ensures !LosesAt(plan, turns, k)
  {
    forall j | 0 <= j < k ensures !LosesAt(plan, turns, j) { NotLost(plan, turns, j); }
    NoneLostTidy(plan, turns, k);
    TurnTidy(plan, turns, k);
    assert turns[..k + 1][..k] == turns[..k];
    var s := Run(plan, turns[..k]);
    assert Run(plan, turns[..k + 1]) == Took(s, turns[k]);
    if !Tidy(Took(s, turns[k])) { LostTwoWays(s, turns[k]); }
  }

  /** No task is lost when no handler told of a move to backoff reconnects and fails. */
  lemma {:induction false} FriendlyLosesNone(plan: Plan, turns: seq<Turn>)
    requires AllFriendly(plan, turns)
    ensures NoneLost(plan, turns)
  {
    forall k | 0 <= k <= |turns| ensures OneWay(Run(plan, turns[..k])) {
      RunTidy(plan, turns[..k]);
      TidyOneWay(Run(plan, turns[..k]));
    }
    OneWayExactly(plan, turns);
  }

  // ----- A run of it -----

  /** A connection opens and dies, and the backoff handler's own connect() fails. */
  function OrphanTurns(): seq<Turn> {
    [Turn(Call, [], []), Turn(Transport(Opens), [], []),
     Turn(Ends(Close(1006, "")), [], [Connects(Refuses)]), Turn(Stop, [], [])]
  }

  lemma {:induction false} RunOneMore(plan: Plan, turns: seq<Turn>, turn: Turn)
    ensures Run(plan, turns + [turn]) == Took(Run(plan, turns), turn)
  {
    assert (turns + [turn])[..|turns|] == turns;
  }

  lemma {:induction false} OpenedRun(plan: Plan) returns (s: Link)
    requires plan.reconnect
    ensures s == Run(plan, OrphanTurns()[..2]) && Rested(s) && Tidy(s) && s.wire.ws.Some?
    ensures SideOf(s) == Side([], [], Up, Connecting, false, false)
  {
    var turns := OrphanTurns();
    var s0 := Initial(plan);
    assert turns[..1] == [] + [turns[0]] && turns[..2] == turns[..1] + [turns[1]];
    RunOneMore(plan, [], turns[0]);
    RunOneMore(plan, turns[..1], turns[1]);
    NextSide(s0, turns[0]);
    var s1 := Next(s0, turns[0]);
    assert s1.connecting;
    NextSide(s1, turns[1]);
    s := Next(s1, turns[1]);
  }

  /** The close goes without an answer, the backoff handler connects and fails. */
  lemma {:induction false} LosesOne(s: Link)
    requires Rested(s) && Tidy(s) && s.plan.reconnect && s.wire.ws.Some?
    requires SideOf(s) == Side([], [], Up, Connecting, false, false)
    ensures var r := Next(s, OrphanTurns()[2]); SideOf(r).lost && Rested(r)
  {
    var turn := OrphanTurns()[2];
    NextSide(s, turn);
    PlaysToLost(SideOf(s).(at := Down, late := [Connects(Refuses)]), !s.verdict.announced);
  }

  lemma {:induction false} PlaysToLost(x: Side, first: bool)
    requires x == Side([], [Connects(Refuses)], Down, Connecting, false, false)
    ensures Closing(Heed(x), false, first).lost
  {
    assert Heed(x) == x;
    var y := x.(phase := Phase.Backoff);
    var z := y.(late := []);
    assert Begin(z) == z.(at := Up, phase := Connecting);
    assert Reschedule(z.(phase := Connecting)) == z.(armed := true);
    assert Answered(z, Connects(Refuses)) == z.(armed := true);
    assert HeedLate(y) == z.(armed := true);
  }

  /** disconnect() cancels the known task; the lost one outlives it. */
  lemma {:induction false} OrphanOutlivesStop(plan: Plan)
    requires plan.reconnect
    ensures var s := Run(plan, OrphanTurns()); s.disposed && s.wait.timers != map[]
  {
    var turns := OrphanTurns();
    var s := OpenedRun(plan);
    LosesOne(s);
    assert turns[..3] == turns[..2] + [turns[2]] && turns == turns[..3] + [turns[3]];
    RunOneMore(plan, turns[..2], turns[2]);
    RunOneMore(plan, turns[..3], turns[3]);
    StopKeepsLost(Next(s, turns[2]), turns[3]);
  }

  lemma {:induction false} StopKeepsLost(s: Link, turn: Turn)
    requires Rested(s) && s.plan.reconnect && SideOf(s).lost && turn.input.Stop?
    ensures var r := Took(s, turn); r.disposed && r.wait.timers != map[]
  {
    DisposeSide(Heard(s, turn));
    StraysWait(Took(s, turn).wait);
  }

  lemma StraysWait(w: Wait)
    requires StraysOf(w) != {}
    ensures w.timers != map[]
  {
    var id :| id in StraysOf(w);
  }
}
