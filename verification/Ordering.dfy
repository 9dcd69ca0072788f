/** Per-conversation sequence ordering (src/agentchatme/_realtime.py:1661-1991):
    what each step does to one order state and which frames it hands over. */
module Ordering {
  import opened Wrappers
  import opened Envelopes

  const MAX_BUFFERED := 500

  /** `fillFrom` is the first missing seq of the history fill in flight, if any;
      `life` tells two states of the same conversation apart. */
  datatype OrderState = OrderState(
    next: nat,
    buffer: map<nat, Pending>,
    timer: bool,
    gapStarted: Option<nat>,
    fillFrom: Option<nat>,
    life: nat)

  /** The new state, the frames handed over in that order, and the gap notice
      raised after them. */
  datatype Outcome = Outcome(state: OrderState, out: seq<Pending>, gap: Option<GapNotice>)

  function Anchored(s: nat, life: nat): OrderState {
    OrderState(s + 1, map[], false, None, None, life)
  }

  predicate Idle(o: OrderState) {
    o.buffer == map[] && !o.timer && o.fillFrom.None?
  }

  // ----- Sorted keys -----

  predicate IsLeast(m: nat, s: set<nat>) {
    m in s && forall x :: x in s ==> m <= x
  }

  lemma {:induction false} LeastExists(s: set<nat>, x: nat)
    requires x in s
    ensures exists m :: IsLeast(m, s)
  {
    if y :| y in s && y < x {
      LeastExists(s, y);
    } else {
      assert IsLeast(x, s);
    }
  }

  function Least(s: set<nat>): (m: nat)
    requires s != {}
    ensures IsLeast(m, s)
  {
    var x :| x in s;
    LeastExists(s, x);
    var m :| IsLeast(m, s);
    m
  }

  ghost predicate Increasing(s: seq<nat>) {
    forall i, j :: 0 <= i < j < |s| ==> s[i] < s[j]
  }

  /** The keys in increasing order. */
  function Sorted(s: set<nat>): (r: seq<nat>)
    ensures Increasing(r) && |r| == |s|
    ensures forall x :: x in r <==> x in s
  {
    if s == {} then []
    else
      var m := Least(s);
      var rest := Sorted(s - {m});
      LeastFirst(s, m, rest);
      [m] + rest
  }

  lemma LeastFirst(s: set<nat>, m: nat, rest: seq<nat>)
    requires IsLeast(m, s) && Increasing(rest) && forall x :: x in rest <==> x in s - {m}
    ensures Increasing([m] + rest) && forall x :: x in [m] + rest <==> x in s
  {
    forall i | 0 <= i < |rest| ensures m < rest[i] { assert rest[i] in s - {m}; }
  }

  function Values(buffer: map<nat, Pending>, keys: seq<nat>): seq<Pending>
    requires forall k :: k in keys ==> k in buffer
  {
    seq(|keys|, i requires 0 <= i < |keys| => assert keys[i] in keys; buffer[keys[i]])
  }

  function LeastParked(o: OrderState): Option<nat> {
    if o.buffer.Keys == {} then None else Some(Least(o.buffer.Keys))
  }

  // ----- The steps -----

  /** n consecutive keys from `from` on, and no more. */
  predicate IsRun(keys: set<nat>, from: nat, n: nat) {
    (forall k :: from <= k < from + n ==> k in keys) && from + n !in keys
  }

  lemma {:induction false} RunExists(keys: set<nat>, from: nat) returns (n: nat)
    ensures IsRun(keys, from, n)
    decreases |keys|
  {
    if from in keys {
      n := RunExists(keys - {from}, from + 1);
      forall k | from <= k < from + n + 1 ensures k in keys {
        if k != from { assert k in keys - {from}; }
      }
      n := n + 1;
    } else {
      n := 0;
    }
  }

  /** How many consecutive keys there are from `from` on. */
  function RunLength(keys: set<nat>, from: nat): (n: nat)
    ensures IsRun(keys, from, n)
  {
    assert exists n :: IsRun(keys, from, n) by { var n := RunExists(keys, from); }
    var n: nat :| IsRun(keys, from, n);
    n
  }

  function Outside(buffer: map<nat, Pending>, lo: nat, hi: nat): map<nat, Pending> {
    map k | k in buffer && !(lo <= k < hi) :: buffer[k]
  }

  /** Hand over parked frames while the next expected one is there. */
  function DrainRun(o: OrderState): (OrderState, seq<Pending>) {
    var n := RunLength(o.buffer.Keys, o.next);
    (o.(buffer := Outside(o.buffer, o.next, o.next + n), next := o.next + n),
     seq(n, i requires 0 <= i < n => assert o.next + i in o.buffer.Keys; o.buffer[o.next + i]))
  }

  function ClearTimer(o: OrderState): OrderState {
    if o.timer && o.buffer == map[] then o.(timer := false, gapStarted := None) else o
  }

  /** The expected frame arrived. */
  function InOrder(o: OrderState, p: Pending): Outcome {
    var run := DrainRun(o.(next := o.next + 1));
    Outcome(ClearTimer(run.0), [p] + run.1, None)
  }

  function Notice(o: OrderState, buffered: Option<nat>, recovered: bool, reason: GapReason): GapNotice {
    GapNotice(o.gapStarted.GetOr(o.next), buffered, recovered, reason)
  }

  /** Hand over everything parked, in seq order, and move the cursor past it. */
  function Resolve(o: OrderState, buffered: Option<nat>, recovered: bool, reason: GapReason): Outcome {
    var keys := Sorted(o.buffer.Keys);
    var next := if keys == [] then o.next else Max(o.next, keys[|keys| - 1] + 1);
    Outcome(
      o.(buffer := map[], next := next, timer := false, gapStarted := None),
      Values(o.buffer, keys),
      Some(Notice(o, buffered, recovered, reason)))
  }

  /** A frame ahead of the expected one: park it, and either arm the gap timer
      or, past the bound, give the gap up at once. */
  function Park(o: OrderState, s: nat, p: Pending): Outcome {
    var o1 := o.(buffer := o.buffer[s := p]);
    if |o1.buffer| > MAX_BUFFERED then Resolve(o1, LeastParked(o1), false, BufferOverflow)
    else if !o1.timer then Outcome(o1.(timer := true, gapStarted := Some(o1.next)), [], None)
    else Outcome(o1, [], None)
  }

  /** A frame with seq s, below-anchor frames being dropped. */
  function Receive(o: OrderState, s: nat, p: Pending): Outcome {
    if s < o.next then Outcome(o, [], None)
    else if s == o.next then InOrder(o, p)
    else Park(o, s, p)
  }

  /** The gap timer fired: give up without a history client, leave a fill in
      flight alone, otherwise start one. */
  function TimerFired(o: OrderState, hasClient: bool): Outcome {
    var o1 := o.(timer := false);
    if o1.buffer == map[] then Outcome(o1, [], None)
    else if !hasClient then Resolve(o1, LeastParked(o1), false, GapFillUnavailable)
    else if o1.fillFrom.Some? then Outcome(o1, [], None)
    else Outcome(o1.(fillFrom := Some(o1.next)), [], None)
  }

  datatype FillResult = FillError | Fetched(rows: seq<Body>)

  /** Does this fetched row enter the buffer? */
  predicate RowFits(buffer: map<nat, Pending>, from: nat, row: Body) {
    row.number.Some? && from <= row.number.value && row.number.value !in buffer
  }

  /** The buffer with the fetched rows merged in: parked frames win. */
  function Merge(buffer: map<nat, Pending>, from: nat, rows: seq<Body>, wsAck: bool): map<nat, Pending>
  {
    if rows == [] then buffer
    else
      var b := Merge(buffer, from, rows[..|rows| - 1], wsAck);
      var row := rows[|rows| - 1];
      if RowFits(b, from, row) then b[row.number.value := Pending(Envelope(row, None), wsAck)] else b
  }

  /** The rows Merge takes, in the order fetched. */
  function Merged(buffer: map<nat, Pending>, from: nat, rows: seq<Body>, wsAck: bool): seq<Body> {
    if rows == [] then []
    else
      var b := Merge(buffer, from, rows[..|rows| - 1], wsAck);
      var taken := Merged(buffer, from, rows[..|rows| - 1], wsAck);
      var row := rows[|rows| - 1];
      if RowFits(b, from, row) then taken + [row] else taken
  }

  /** What follows the run of a fill: everything still parked, and the gap notice. */
  function AfterRun(o: OrderState): Outcome {
    var run := DrainRun(o);
    if run.1 != [] then Resolve(run.0, None, true, GapFilled)
    else Resolve(run.0, LeastParked(run.0), false, GapFillFailed)
  }

  /** A fill whose rows have been merged in. */
  function MergedOutcome(o: OrderState): Outcome {
    var rest := AfterRun(o);
    rest.(out := DrainRun(o).1 + rest.out)
  }

  /** The history fill came back. */
  function FillReturned(o: OrderState, result: FillResult, wsAck: bool): Outcome
    requires o.fillFrom.Some?
  {
    var o1 := o.(fillFrom := None);
    match result
    case FillError => Resolve(o1, LeastParked(o1), false, GapFillFailed)
    case Fetched(rows) =>
      MergedOutcome(o1.(buffer := Merge(o1.buffer, o.fillFrom.value, rows, wsAck)))
  }

  /** The close flush: everything parked is handed over in seq order. */
  function Flush(o: OrderState, reason: GapReason): Outcome {
    var keys := Sorted(o.buffer.Keys);
    var gap := if keys == [] then None else Some(Notice(o, Some(keys[0]), false, reason));
    Outcome(o.(buffer := map[], timer := false), Values(o.buffer, keys), gap)
  }
}
