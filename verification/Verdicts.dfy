/** What a close says about the key (src/agentchatme/_realtime.py:350-377, 1029-1091),
    in terms of its code and the letters of its reason. */
module Verdicts {
  import opened Wrappers
  import opened Text
  import opened Backoff
  import opened Lifecycle
  import opened Connection

  /** Code 4401, code 4403, or code 1008 and a reason with "invalid token" in it. */
  ghost predicate KeyRefused(close: Close) {
    || close.code == 4401 || close.code == 4403
    || (close.code == 1008 &&
        exists a, w, b :: close.reason == a + w + b && Spells(w, "invalid token"))
  }

  lemma LowerPart(s: string, i: nat, n: nat)
    requires i + n <= |s|
    ensures Lower(s)[i..i + n] == Lower(s[i..i + n])
  {
  }

  lemma MentionsSpelled(s: string, i: nat)
    requires i + 13 <= |s|
    ensures MentionsAt(Lower(s), "invalid token", i) <==> Spells(s[i..i + 13], "invalid token")
  {
    assert NoCapitals("invalid token");
    LowerPart(s, i, 13);
    LowerSpells(s[i..i + 13], "invalid token");
  }

  lemma SpelledMentioned(a: string, w: string, b: string)
    requires Spells(w, "invalid token")
    ensures Mentions(Lower(a + w + b), "invalid token")
  {
    var s := a + w + b;
    assert s[|a|..|a| + 13] == w;
    MentionsSpelled(s, |a|);
  }

  lemma RefusedIsRejected(close: Close)
    ensures Rejects(close) <==> KeyRefused(close)
  {
    var s := close.reason;
    if i: nat :| i <= |s| && MentionsAt(Lower(s), "invalid token", i) {
      MentionsSpelled(s, i);
      assert s == s[..i] + s[i..i + 13] + s[i + 13..];
    }
    if a, w, b :| s == a + w + b && Spells(w, "invalid token") { SpelledMentioned(a, w, b); }
  }

  /** A close that no handler answers by stopping the client: it is recorded as the
      rejection of the key exactly if the server sent it, before hello.ok, and it
      says so; any other leaves the verdict as it was. */
  lemma {:induction false} RecordedExactly(s: Link, close: Close, script: seq<Answer>, late: seq<Answer>)
    requires Rested(s) && s.wire.ws.Some? && !Next(s, Turn(Ends(close), script, late)).disposed
    ensures var r := Next(s, Turn(Ends(close), script, late));
      r.verdict ==
      if !s.wire.ours && !s.wire.authenticated && KeyRefused(close) then Verdict(Some(close), true) else s.verdict
  {
    RefusedIsRejected(close);
    var s0 := Heard(s, Turn(Ends(close), script, late));
    assert Next(s, Turn(Ends(close), script, late)) == AfterClose(Drop(s0, close), close, Rejection(s0, close));
  }

  /** The server was merely too slow: the key is good. */
  lemma {:induction false} TooSlowIsNoRefusal(s: Link, script: seq<Answer>, late: seq<Answer>)
    requires Rested(s) && s.wire.ws.Some?
    requires !Next(s, Turn(Ends(Close(1008, "HELLO frame required")), script, late)).disposed
    ensures Next(s, Turn(Ends(Close(1008, "HELLO frame required")), script, late)).verdict == s.verdict
  {
    RecordedExactly(s, Close(1008, "HELLO frame required"), script, late);
    NoInvalidToken();
  }

  lemma NotThere(a: string, w: string, b: string)
    requires a + w + b == "HELLO frame required" && |w| == 13
    ensures !Spells(w, "invalid token")
  {
    assert w[0] == "HELLO frame required"[|a|];
  }

  lemma NoInvalidToken()
    ensures !KeyRefused(Close(1008, "HELLO frame required"))
  {
    forall a: string, w, b: string | a + w + b == "HELLO frame required" ensures !Spells(w, "invalid token") {
      if |w| == 13 { NotThere(a, w, b); }
    }
  }

  lemma InvalidToken()
    ensures KeyRefused(Close(1008, "Invalid token"))
  {
    var w, word := "Invalid token", "invalid token";
    assert w == ['I'] + "nvalid token" && word == ['i'] + "nvalid token";
    forall i | 1 <= i < |w| ensures w[i] == word[i] {}
    assert "" + w + "" == w && Spells(w, word);
  }

  lemma {:induction false} InvalidTokenIsRefusal(s: Link, script: seq<Answer>, late: seq<Answer>)
    requires Rested(s) && s.wire.ws.Some? && !s.wire.ours && !s.wire.authenticated
    requires !Next(s, Turn(Ends(Close(1008, "Invalid token")), script, late)).disposed
    ensures Next(s, Turn(Ends(Close(1008, "Invalid token")), script, late)).verdict ==
            Verdict(Some(Close(1008, "Invalid token")), true)
  {
    RecordedExactly(s, Close(1008, "Invalid token"), script, late);
    InvalidToken();
  }

  // ----- And what it waits -----

  predicate Silent(s: Link) {
    s.script == [] && s.late == []
  }

  lemma SilentNotify(s: Link, ev: Event)
    requires Silent(s) && Plain(ev)
    ensures Notify(s, ev) == Note(s, ev)
  {
  }

  lemma SilentPhase(s: Link, phase: Phase)
    requires Silent(s)
    ensures SetPhase(s, phase) == if s.phase == phase then s else Note(s.(phase := phase), StateChanged(phase))
  {
    SilentNotify(s.(phase := phase), StateChanged(phase));
  }

  /** The reconnect task the client knows of, and waits for in this phase. */
  ghost predicate WaitsFor(r: Link, phase: Phase, t: Timer) {
    && r.phase == phase && r.wait.slot.Some? && r.wait.slot.value in r.wait.timers
    && t == r.wait.timers[r.wait.slot.value]
  }

  /** Ten to fifteen minutes from now. */
  predicate SlowAttempt(s: Link, t: Timer) {
    s.time.clock + 600_000 <= t.due < s.time.clock + 900_000
  }

  /** Within the step of the next attempt, and at least three quarters of it. */
  predicate NextAttempt(s: Link, t: Timer) {
    var step := Max(0, RawStep(s.plan.base, s.plan.cap, s.attempts + 1));
    t.kind == Retry(s.attempts + 1) && 3 * step - 4 <= 4 * (t.due - s.time.clock) <= 4 * step
  }

  lemma SilentBackOff(s: Link)
    requires Silent(s) && Sound(s) && !Busy(s) && s.plan.reconnect && s.wait.slot.None?
    ensures exists t :: WaitsFor(ScheduleReconnect(s), Phase.Backoff, t) && NextAttempt(s, t)
  {
    SilentPhase(Tried(s), Phase.Backoff);
    NextDue(s);
    assert WaitsFor(ScheduleReconnect(s), Phase.Backoff, NextTimer(s));
  }

  function NextTimer(s: Link): Timer {
    var delay := ReconnectDelay(s.plan.base, s.plan.cap, s.attempts + 1, s.plan.draws(s.wait.made));
    Timer(s.time.clock + delay, Retry(s.attempts + 1))
  }

  lemma NextDue(s: Link)
    ensures NextAttempt(s, NextTimer(s))
  {
    DelayBounds(s.plan.base, s.plan.cap, s.attempts + 1, s.plan.draws(s.wait.made));
  }

  lemma SilentBlock(s: Link, close: Close)
    requires Silent(s) && Sound(s) && !Busy(s) && s.plan.reconnect && s.wait.slot.None?
    ensures exists t :: WaitsFor(EnterBlocked(s, close), Phase.Blocked, t) && SlowAttempt(s, t)
  {
    var u := s.plan.draws(s.wait.made);
    AuthRetryBounds(u);
    SilentPhase(s.(verdict := Verdict(Some(close), true)), Phase.Blocked);
    var s1, first := Blame(s, close), !s.verdict.announced;
    assert Announce(s1, first) ==
           Note(if first then Note(s1, ErrorRaised(AuthRejected)) else s1, BlockedRaised);
    assert WaitsFor(EnterBlocked(s, close), Phase.Blocked, Timer(s.time.clock + AuthRetryDelay(u), SlowRetry));
  }

  ghost predicate RetriesLater(s: Link, r: Link, refused: bool) {
    if refused then exists t :: WaitsFor(r, Phase.Blocked, t) && SlowAttempt(s, t)
    else exists t :: WaitsFor(r, Phase.Backoff, t) && NextAttempt(s, t)
  }

  /** With handlers that only listen: a rejected key is tried again after 10 to 15
      minutes, and after any other close the normal backoff of the next attempt
      applies. */
  lemma {:induction false} RetriesAsRecorded(s: Link, close: Close)
    requires Rested(s) && s.wire.ws.Some? && s.plan.reconnect
    ensures RetriesLater(s, Next(s, Turn(Ends(close), [], [])),
                         !s.wire.ours && !s.wire.authenticated && KeyRefused(close))
  {
    var s0 := Heard(s, Turn(Ends(close), [], []));
    RefusedIsRejected(close);
    DropsSilently(s0, close);
    assert Next(s, Turn(Ends(close), [], [])) == AfterClose(Drop(s0, close), close, Rejection(s0, close));
    AfterSilence(s0, Drop(s0, close), close, Rejection(s0, close));
    SameLater(s, s0, Next(s, Turn(Ends(close), [], [])), Rejection(s0, close));
  }

  lemma SameLater(s: Link, d: Link, r: Link, refused: bool)
    requires RetriesLater(d, r, refused) && d.plan == s.plan && d.attempts == s.attempts && d.time == s.time
    ensures RetriesLater(s, r, refused)
  {
    if refused {
      var t :| WaitsFor(r, Phase.Blocked, t) && SlowAttempt(d, t);
      assert SlowAttempt(s, t);
    } else {
      var t :| WaitsFor(r, Phase.Backoff, t) && NextAttempt(d, t);
      assert NextAttempt(s, t);
    }
  }

  lemma AfterSilence(s: Link, d: Link, close: Close, refused: bool)
    requires Silent(d) && Sound(d) && !Busy(d) && d.wait.slot.None? && d.plan.reconnect
    requires d.plan == s.plan && d.attempts == s.attempts && d.time == s.time
    ensures RetriesLater(s, AfterClose(d, close, refused), refused)
  {
    if refused { SilentBlock(d, close); } else { SilentBackOff(d); }
    SameLater(s, d, AfterClose(d, close, refused), refused);
  }

  lemma DropsSilently(s: Link, close: Close)
    requires Silent(s) && Rested(s) && s.wire.ws.Some?
    ensures var d := Drop(s, close);
      && Silent(d) && Sound(d) && !Busy(d) && d.wait.slot.None?
      && d.plan == s.plan && d.attempts == s.attempts && d.time == s.time
  {
    var closed := Note(s.(wire := Closed(s.wire).(ours := false), stability := false), SocketEnded(close));
    SilentNotify(closed, Disconnected(s.wire.ours));
    assert Drop(s, close) == Note(closed, Disconnected(s.wire.ours));
  }
}
