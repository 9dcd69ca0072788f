/** Ack on receipt, client and server together: whatever the server has marked
    delivered was handed to the handlers here or is still parked. */
module DrainNoLoss {
  import opened Wrappers
  import opened Envelopes
  import opened Delivery
  import opened DeliveryLaws
  import opened Drain
  import opened DrainLaws
  import opened NoLoss

  ghost predicate GenuineMove(origin: Origin, m: Move) {
    match m
    case Live(i) => GenuineInput(origin, i)
    case RowAdded(row) => Genuine(origin, row.body)
    case _ => true
  }

  ghost predicate SystemSound(origin: Origin, s: System) {
    && Inv(s) && Sound(origin, s.engine)
    && (forall j :: 0 <= j < |s.server| ==> Genuine(origin, s.server[j].body))
    && (s.phase.Routing? ==> forall i :: 0 <= i < |s.phase.envs| ==> Genuine(origin, s.phase.envs[i].body))
  }

  ghost predicate SameLog(s: System, s': System) {
    s'.server == s.server && s'.engine.orders == s.engine.orders && !s'.phase.Routing?
    && s'.engine.core.log == s.engine.core.log && s'.engine.core.cfg == s.engine.core.cfg
  }

  lemma SettledSameLog(s: System)
    requires Inv(s) && Possible(s, PageRouted)
    ensures SameLog(s, Step(s, PageRouted))
  {
    var Routing(at, page, rows, envs, routed) := s.phase;
    if at.frozen || s.engine.core.disposed {
    } else {
      var n := JudgeSafe(s.engine.core, rows, envs, routed, 0, None);
      var v := Judge(s.engine.core, rows, envs, routed, 0, None);
    }
  }

  lemma StepEngineSound(origin: Origin, s: System, m: Move)
    requires SystemSound(origin, s) && GenuineMove(origin, m) && Possible(s, m)
    ensures Sound(origin, Step(s, m).engine)
  {
    StepInv(s, m);
    match m
    case Live(i) => NextSound(origin, s.engine, i);
    case RowRouted => NextSound(origin, s.engine, DrainRow(s.phase.envs[|s.phase.routed|]));
    case PageRouted =>
      SettledSameLog(s);
    case _ =>
  }

  lemma StepSound(origin: Origin, s: System, m: Move)
    requires SystemSound(origin, s) && GenuineMove(origin, m)
    ensures SystemSound(origin, Step(s, m))
  {
    StepInv(s, m);
    if Possible(s, m) {
      StepEngineSound(origin, s, m);
      if m.PageRouted? { SettledSameLog(s); }
    }
  }

  lemma {:induction false} MovesSound(origin: Origin, s: System, ms: seq<Move>)
    requires SystemSound(origin, s) && forall m :: m in ms ==> GenuineMove(origin, m)
    ensures SystemSound(origin, Moves(s, ms))
  {
    if ms != [] {
      MovesSound(origin, s, ms[..|ms| - 1]);
      StepSound(origin, Moves(s, ms[..|ms| - 1]), ms[|ms| - 1]);
    }
  }

  /** At every point of every run, each row the server has marked delivered was
      cleanly dispatched here, or at least handed over, or is parked. */
  lemma DeliveredNeverLost(origin: Origin, s: System, ms: seq<Move>)
    requires Initial(s) && s.engine.core.cfg.ackOnReceipt
    requires forall j :: 0 <= j < |s.server| ==> Genuine(origin, s.server[j].body)
    requires forall m :: m in ms ==> GenuineMove(origin, m)
    ensures var s' := Moves(s, ms);
      forall j :: 0 <= j < |s'.server| && s'.server[j].delivered ==>
        var body := s'.server[j].body;
        Accepted(s'.engine.core.log, body)
        || (body.id.Some? && (HandedId(s'.engine.core.log, body.id.value) || Parked(s'.engine.orders, body.id.value)))
  {
    MovesSound(origin, s, ms);
    MovesInv(s, ms);
  }
}
