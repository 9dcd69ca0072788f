# The realtime delivery engine, in Dafny

A model of the AgentChat Python client's delivery engine and of three
smaller parts, with proofs over all inputs and all finite runs.

A client holds one socket. Frames of a conversation carry increasing seq numbers;
the client puts them back in order, parks what is ahead, fetches what is missing,
gives a gap up when it must, and hands each message to the user's handlers once.
It acknowledges either after a clean dispatch or on receipt. What arrived while the
socket was down is drained in pages and committed with a positional cursor, which
must never cover a row no handler accepted. The connection itself goes through
idle, connecting, ready, backoff, blocked and stopped, with handlers that may
raise, reconnect or stop the client from inside any notification.

The modules follow that:

- `Lru`, `Envelopes`, `Ordering`, `Delivery`, `Drain`: the recency set, one order
  state, the engine, and the engine beside a server, as functions on values.
  `Client` holds the classes that change fields in place, every method proved to
  take the state where those functions take it.
- `OrderingLaws`, `Lives`, `Reorder`, `Conversations`, `DeliveryLaws`, `Acks`, `AckLaws`,
  `NoLoss`, `Dedup`, `Sight`, `SightLaws`, `DrainLaws`, `DrainNoLoss`, `DrainReach`,
  `DrainDone`: what holds of every step, life and run.
- `Backoff`, `Lifecycle`, `Connection`: waits, handler re-entry and events as
  functions; `Session` is the class, every method proved to take the state where the
  function of its name takes it, up to `HandleTurn`, one whole event;
  `Verdicts` says which closes reject the key; `ConnectionLaws`, `Flapping`, `Answers`,
  `Orphan` are the laws over runs.
- `Retry`, `Pagination`, `Text`, `Gate`, `Tray`: the HTTP retry loop, the
  paginator, and the gate that reads a model's verdicts about a tray.

Three statements of the repository's own documentation do not hold of its code. The
code is modelled as it is, a lemma gives the input, and another says exactly when
the statement holds:

- Handlers see a conversation "in strict seq-ascending order, no gaps and no repeats"
  but for a failed fill (src/agentchatme/_realtime.py:1656-1659). `SightLaws.SeenInOrderExactly`
  says over all runs of the engine, in both ack modes and with what the dedup set absorbs,
  exactly which branches break that: an idle state is forgotten, so any unknown frame may
  anchor the next one (`SightLaws.SkipIsSeen`: 1, 2, 4, and 3 never); acking on receipt, an unknown frame below the cursor is delivered
  late (`SightLaws.LateIsSeen`: 5, then 4); a frame whose handler raised, or whose id the
  dedup set has dropped, is handed over again; and a fill that reports `recovered=True` may
  leave holes. What reaches the choke point in the default mode is
  `Conversations.OrderHoldsExactly`, and `Conversations.OrderBreaks` a history of it.
- "Never both at once" of the two reconnect timers (563-565), and that nothing
  survives disconnect() (1465-1469): `_schedule_reconnect` looks for a waiting timer
  before it tells the state handlers of the backoff, not after.
  `Orphan.OrphanOutlivesStop` is a run of it. `Answers` plays out what handlers answer,
  and nothing else; `Orphan.OneWayExactly` and `Orphan.BackOffLoses` say from that exactly
  when a timer is lost. `ConnectionLaws.ExactlyOneWay` covers every run in which the
  handlers of that one notification do not call a failing connect(), and
  `ConnectionLaws.NeverDeadNeverDouble` and `ConnectionLaws.CutOffIsReported` every run there is.
- A reply's anchor is that of the card it holds (src/agentchatme/gate.py:394-397):
  with a doubled conversation id in a raw tray the card is the first and the anchor the
  last one's. `Tray.AnchorDiffers`, `Tray.EntryAnchored`. A typed tray keeps the last card.

`Lives.GapFillComplete` also says what `recovered=True` means: the first missing seq was
filled; later holes may remain.

## Model

| member | source | states |
|---|---|---|
| `Lru.BoundedLruSet.Contains` | src/agentchatme/_realtime.py:440-445 | a hit refreshes the key to newest and leaves the rest in order; a miss changes nothing |
| `Lru.BoundedLruSet.Insert` | src/agentchatme/_realtime.py:447-453 | the added key becomes newest and the oldest keys beyond the capacity go, one step of `Lru.Add` |
| `Lru.RunIsNewest` | src/agentchatme/_realtime.py:425-453 | after any history of lookups and insertions the set holds exactly the `capacity` most recently touched distinct keys, in recency order |
| `Lru.MemberIffRecent` | src/agentchatme/_realtime.py:425-453 | a key is a member iff it was touched (added, or hit while present) and fewer than `capacity` distinct keys have been touched since its own last touch |
| `Lru.RunBounded` | src/agentchatme/_realtime.py:447-453 | the set never holds more than `capacity` keys, and none twice |
| `OrderingLaws.InOrderOk` | src/agentchatme/_realtime.py:1721-1727 | the expected frame: it and the consecutive parked ones go out as one gapless run, the cursor ends right behind, every parked seq stays above it |
| `OrderingLaws.ParkOk` | src/agentchatme/_realtime.py:1729-1750 | a frame ahead is parked under its own seq with a timer armed, or with more than 500 parked all go out in seq order with a gap notice; nothing parked is lost |
| `OrderingLaws.TimerOk` | src/agentchatme/_realtime.py:1759-1787 | the timer step gives up at once without a history client, leaves a fill in flight alone, else starts one without touching the buffer; cursor and parked frames are kept |
| `OrderingLaws.ResolveFacts` | src/agentchatme/_realtime.py:1874-1926 | giving up a gap hands over every parked frame, reports the gap, never moves the cursor back |
| `OrderingLaws.ResolveOrderly` | src/agentchatme/_realtime.py:1897-1907 | giving up a gap hands over in strictly increasing seq order from the cursor on and ends right behind the last |
| `OrderingLaws.MergeFacts` | src/agentchatme/_realtime.py:1817-1839 | fetched rows enter under their own seq, only from the fill's start on, never over a parked frame, and the rows taken are exactly those that found their seq free |
| `OrderingLaws.FillOk` | src/agentchatme/_realtime.py:1789-1857 | a fill that comes back, however late and stale, leaves nothing parked or merged behind, hands all of it over, reports the gap and whether it was filled, and does not move the cursor back |
| `OrderingLaws.FlushOk` | src/agentchatme/_realtime.py:1949-1990 | the flush of a conversation hands over everything parked, increasing and above the cursor, with a notice exactly when there was something |
| `OrderingLaws.NoticesNameGaps` | src/agentchatme/_realtime.py:1884-1924 | a gap notice of a frame, timer or flush names a real gap and its cause: from the cursor when the gap was first seen, at most the cursor now, to the least seq parked |
| `OrderingLaws.GapMarked` | src/agentchatme/_realtime.py:1741-1744 | the first frame ahead of the cursor marks where the gap starts, and no later one moves the mark while it stays open |
| `Lives.HandedInOrder` | src/agentchatme/_realtime.py:1694-1991 | over any life of an order state, its flush included, what it hands over to the choke point strictly increases, the cursor is last + 1 while the life goes on, and unless a gap was reported no seq was skipped; a frame below the cursor does not pass through the state |
| `Lives.GapFillComplete` | src/agentchatme/_realtime.py:1817-1849 | when every seq from the cursor through `top` is parked or fetched, the fill hands over that run and every other merged frame once in order, parks nothing, reports recovered; the whole output is contiguous iff the merged frames have no hole |
| `Reorder.InBoundInOrder` | src/agentchatme/_realtime.py:1694-1750 | frames alone, of which never more than 500 seqs are ahead of the longest run from the anchor: no notice is raised, the hand-overs are exactly that run, each once, and the parked seqs are exactly those ahead; the life goes on as long as something is missing |
| `Reorder.InBoundNoNotice` | src/agentchatme/_realtime.py:1729-1740 | nor is a notice raised once nothing is missing: the life is over then |
| `Reorder.OverflowAt501` | src/agentchatme/_realtime.py:313-315 | the frame that puts 501 seqs ahead: every seq received from the anchor on has gone out in increasing order, nothing stays parked, and the one notice says overflow and the least seq that was ahead |
| `Reorder.ArrivalOrderIrrelevant` | src/agentchatme/_realtime.py:1694-1750 | two arrival orders of the same seqs, within that bound, end in the same hand-overs and the same parked seqs |
| `Conversations.FrameIsRoute` | src/agentchatme/_realtime.py:1661-1750 | a frame does to one conversation what the engine's routing does: the state kept, the frames delivered in that order, and the notice reported |
| `Conversations.HappenIsStep` | src/agentchatme/_realtime.py:1759-1857 | so do a gap timer, a history fill however late, and a close, which delivers and reports nothing |
| `Conversations.StopIsFlush` | src/agentchatme/_realtime.py:1949-1990 | so does the stop's flush |
| `Conversations.OrderHoldsExactly` | src/agentchatme/_realtime.py:1656-1659 | acking after dispatch, over any history of frames, gap timers, fills started and finished apart, closes and the stop: what reaches the choke point is in seq order with no gap and no repeat iff no frame that found no state was anything but the next, no frame overflowed, no gap was given up, and every fill followed on from the cursor without a hole |
| `Conversations.OrderBreaks` | src/agentchatme/_realtime.py:1656-1659 | default mode, seqs 1, 2, 4, 3: 1, 2, 4 reach the choke point, and no notice is raised |
| `DeliveryLaws.DeliverSafe` | src/agentchatme/_realtime.py:1580-1624 | a delivery remembers, settles and (acking after dispatch) acks only ids some dispatch of which settled cleanly, and hands the message over unless its id is known; what it does log is `Acks.DeliverTells` |
| `DeliveryLaws.RouteSafe` | src/agentchatme/_realtime.py:1661-1750 | routing keeps that for the frame and for every parked frame it releases |
| `DeliveryLaws.NextSafe` | src/agentchatme/_realtime.py:1661-1991 | every engine step keeps it, and keeps every order state settled: parked seqs above the cursor, at most 500, a timer or a fill for any |
| `DeliveryLaws.RunSafe` | src/agentchatme/_realtime.py:1661-1991 | the same over all finite sequences of steps, with a log that only grows |
| `DeliveryLaws.CursorNeverBack` | src/agentchatme/_realtime.py:1763-1907 | with fills taken in two steps and anything between, the cursor of an order state never moves back; a state of another life has a fresh identity |
| `Acks.DeliverTells` | src/agentchatme/_realtime.py:1604-1624 | what a delivery logs, exactly: an unknown frame is handed over, and an eligible one with an id is acked right after, if known or handed over cleanly; a drain row settles as clean exactly then |
| `Acks.AckedIff` | src/agentchatme/_realtime.py:1606-1618 | acks negotiated, an eligible frame with an id is acked iff its id was remembered or its handlers settled cleanly |
| `Acks.StepLogs` | src/agentchatme/_realtime.py:980-997 | every engine step, in either mode: but for gap notices it logs the acks of what it received, where acks go out on receipt, and then, frame by frame of those it brings to the choke point, the hand-over and the ack; a frame is known only by an id remembered or handed over cleanly earlier in the step |
| `AckLaws.CleanThenAcked` | src/agentchatme/_realtime.py:1589-1597 | acking after dispatch, over any run of live frames, timers, fills, closes and the stop, with acks negotiated: each message with an id that every handler took is followed at once by its ack |
| `AckLaws.AckedOnReceipt` | src/agentchatme/_realtime.py:983-992 | acking on receipt, after any run: the next step acks just the live frame, or the fetched rows that enter the buffer, each with an id once, and nothing at its delivery |
| `AckLaws.MergedOnce` | src/agentchatme/_realtime.py:1817-1839 | no two of those rows have the same seq, and together they fill just the seqs that were free |
| `NoLoss.FlushLeavesNone` | src/agentchatme/_realtime.py:1949-1991 | after a flush over all conversations every acked message has been handed over |
| `NoLoss.NextSound` | src/agentchatme/_realtime.py:983-992 | acking on receipt: each step keeps every acked message handed over or parked, through below-anchor arrivals, overflow, fills and resets |
| `NoLoss.StartSound` | src/agentchatme/_realtime.py:487-617 | a new client that acks on receipt is where those laws start from |
| `NoLoss.AckedNeverLost` | src/agentchatme/_realtime.py:983-992 | the same over all sequences of steps, and right after a close or a stop nothing is left parked, so each acked message was handed over |
| `Dedup.DedupIsHistory` | src/agentchatme/_realtime.py:1604-1618 | the dedup set after any run of the engine is the recency set of its lookups and insertions, below-anchor frames and drain rows included |
| `Dedup.HandedIffForgotten` | src/agentchatme/_realtime.py:1604-1618 | after any run of the engine a delivery calls the handlers iff its id was not settled before or at least `capacity` distinct ids have been touched since |
| `Sight.DeliverSeen` | src/agentchatme/_realtime.py:1604-1618 | a delivery shows the handlers of a conversation its seq iff the frame is of that conversation and its id is not remembered, and changes nothing else they saw |
| `Sight.StaysKnown` | src/agentchatme/_realtime.py:1604-1618 | of frames delivered in increasing seq order that follow on, one is remembered when its turn comes iff it was before the first: neither the evictions nor the insertions among them matter |
| `Sight.SeenUnbroken` | src/agentchatme/_realtime.py:1580-1618 | frames delivered in increasing seq order keep what handlers see gapless iff those not remembered follow on from the last seq seen, without a hole; then exactly these are seen |
| `SightLaws.RouteKeeps` | src/agentchatme/_realtime.py:1661-1750 | routing keeps that order iff no unknown frame anchors a state out of turn, or comes below the cursor acked already, no released frame was seen and forgotten, and no overflowing buffer has an unknown frame out of turn |
| `SightLaws.FillKeeps` | src/agentchatme/_realtime.py:1789-1857 | a fill, stale rows included, keeps it iff its run repeats nothing forgotten and the unknown frames left then follow on without a hole |
| `SightLaws.FlushKeeps` | src/agentchatme/_realtime.py:1949-1991 | a flush over all conversations keeps it iff at its turn the unknown frames parked in that conversation follow on |
| `SightLaws.SeenInOrderExactly` | src/agentchatme/_realtime.py:1656-1659 | over all runs of the engine, in both ack modes, with any handler outcomes and any dedup capacity: the handlers of a conversation see its seqs in order, no gap and no repeat, iff no step was one of those |
| `SightLaws.SkipIsSeen` | src/agentchatme/_realtime.py:1694-1727 | acking after dispatch, of live frames 1, 2, 4 and 3 the handlers see 1, 2 and 4 |
| `SightLaws.LateIsSeen` | src/agentchatme/_realtime.py:1708-1719 | acking on receipt, live frames 5 and then 4 are seen in that order |
| `DrainLaws.JudgeSafe` | src/agentchatme/_realtime.py:1186-1212 | the rows a page's ack cursor covers were each cleanly dispatched or dedup hits, the cursor is the last delivery id among them, and judging changes only recency |
| `DrainLaws.JudgeExact` | src/agentchatme/_realtime.py:1186-1205 | that prefix ends exactly at the first row that neither settled cleanly nor, not handed over, is a duplicate with a remembered id; acking freezes iff there is one |
| `DrainLaws.StepInv` | src/agentchatme/_realtime.py:1141-1251 | every move of server, live engine and drain keeps the invariant: delivered rows are accounted for, the unfrozen ack cursor is the read cursor, a commit under way covers only accounted rows |
| `DrainLaws.NothingCommittedUnseen` | src/agentchatme/_realtime.py:1095-1251 | at every point of every run each row the server marked delivered, by ack frame or by cursor, was cleanly dispatched here; with acks on receipt, that or its receipt acked |
| `DrainLaws.AckedIsRead` | src/agentchatme/_realtime.py:1186-1235 | while acking has not stopped, at each page end the acked cursor equals the read cursor and covers only accounted rows |
| `DrainLaws.FrozenForGood` | src/agentchatme/_realtime.py:1144-1205 | after the first parked, failed or unseen row no commit starts again in that drain and the acked cursor stays |
| `DrainLaws.DrainAdvances` | src/agentchatme/_realtime.py:1225-1235 | from page to page the read cursor moves to a strictly later row, within the rows the server has |
| `DrainLaws.PageAdvances` | src/agentchatme/_realtime.py:1206-1235 | judging a page and hearing the commit's answer keeps the invariant and, if reading goes on, that progress |
| `DrainNoLoss.DeliveredNeverLost` | src/agentchatme/_realtime.py:983-997 | acking on receipt beside drains: each row the server marked delivered was cleanly dispatched, or handed over, or is parked |
| `DrainReach.AllRouted` | src/agentchatme/_realtime.py:1132-1235 | alone with a server that answers each request with as many stored rows as it has, up to 100, all valid and with delivery ids, a drain that has ended has routed every stored message, once and in order |
| `DrainReach.InvalidIsLast` | src/agentchatme/_realtime.py:1162-1167 | only the rows before the first invalid one are routed |
| `DrainReach.InvalidStops` | src/agentchatme/_realtime.py:1216-1224 | a page with an invalid row is the last of its drain |
| `DrainReach.FullPageExists` | src/agentchatme/_realtime.py:1145-1152 | such a server can answer every request |
| `DrainDone.AllDelivered` | src/agentchatme/_realtime.py:1186-1212 | if moreover each row is handed over, to handlers that never raise, the server has every row delivered when the drain ends |
| `Client.OrderBuffer.Pop` | src/agentchatme/_realtime.py:1866-1868 | takes exactly the expected frame out of the buffer |
| `Client.RealtimeClient.constructor` | src/agentchatme/_realtime.py:487-617 | a new client is the initial engine |
| `Client.RealtimeClient.SendDeliveryAck` | src/agentchatme/_realtime.py:1626-1644 | an ack goes out exactly when acks were negotiated |
| `Client.RealtimeClient.SettleDrainRow` | src/agentchatme/_realtime.py:1620-1624 | only an envelope of the page being drained is settled |
| `Client.RealtimeClient.DispatchMessage` | src/agentchatme/_realtime.py:1557-1578 | handlers are called once and the outcome is theirs |
| `Client.RealtimeClient.DeliverMessageNew` | src/agentchatme/_realtime.py:1580-1618 | the choke point in place: it logs the hand-over and the ack of `Acks.Told`, and the new state is `Delivery.Deliver` of the old |
| `Client.RealtimeClient.DrainConsecutive` | src/agentchatme/_realtime.py:1859-1872 | the loop hands over exactly the consecutive run from the cursor, and discards an idle state |
| `Client.RealtimeClient.CleanupIfIdle` | src/agentchatme/_realtime.py:1935-1941 | a state is discarded exactly when it is idle |
| `Client.RealtimeClient.MaybeClearGapTimer` | src/agentchatme/_realtime.py:1928-1933 | the timer goes exactly when nothing is parked |
| `Client.RealtimeClient.ResolveGap` | src/agentchatme/_realtime.py:1874-1926 | the in-place give-up: parked frames in seq order, cursor, timer, notice and clean-up as `Ordering.Resolve` |
| `Client.RealtimeClient.MinBuffered` | src/agentchatme/_realtime.py:2090-2092 | the least parked seq, if any |
| `Client.RealtimeClient.AnchorAt` | src/agentchatme/_realtime.py:1694-1703 | a first frame makes a fresh order state right behind it |
| `Client.RealtimeClient.ProcessOrderedMessage` | src/agentchatme/_realtime.py:1661-1750 | routing in place: new state and outcome are `Delivery.Route` of the old |
| `Client.RealtimeClient.TakeInOrder` | src/agentchatme/_realtime.py:1721-1727 | the in-order branch in place |
| `Client.RealtimeClient.ParkFrame` | src/agentchatme/_realtime.py:1729-1750 | the parking branch in place, overflow included |
| `Client.RealtimeClient.ReceiveLive` | src/agentchatme/_realtime.py:980-997 | a live frame: acked before routing or after dispatch, by option |
| `Client.RealtimeClient.HandleGapTimer` | src/agentchatme/_realtime.py:1759-1787 | the timer in place, and the seq a fetch starts from |
| `Client.RealtimeClient.FinishGapFill` | src/agentchatme/_realtime.py:1799-1857 | the fill's completion in place; a buffer discarded or replaced meanwhile changes nothing |
| `Client.RealtimeClient.MergeRows` | src/agentchatme/_realtime.py:1817-1839 | the loop over fetched rows merges, and acks on receipt, exactly the rows `Ordering.Merge` takes |
| `Client.RealtimeClient.FlushParkedFrames` | src/agentchatme/_realtime.py:1949-1991 | the flush over all conversations, in the dict's order, leaves no order state |
| `Client.RealtimeClient.FlushConversation` | src/agentchatme/_realtime.py:1959-1990 | one conversation of it, with its notice |
| `Client.RealtimeClient.CloseSocket` | src/agentchatme/_realtime.py:1065-1066 | a close: flush when acks went out on receipt, drop otherwise |
| `Client.RealtimeClient.Disconnect` | src/agentchatme/_realtime.py:1471-1498 | a stop flushes first, whatever the ack discipline |
| `Client.RealtimeClient.StartPage` | src/agentchatme/_realtime.py:1163-1178 | the clean prefix of a page becomes fresh envelopes, each unsettled |
| `Client.RealtimeClient.JudgePage` | src/agentchatme/_realtime.py:1186-1205 | the loop over the routed rows yields `Drain.Judge`'s cursor and freeze |
| `Client.RealtimeClient.DrainRowAckable` | src/agentchatme/_realtime.py:1237-1251 | one row's verdict, a dedup lookup included |
| `Client.RealtimeClient.NextPage` | src/agentchatme/_realtime.py:1206-1235 | reads on exactly after a page of at least 100 rows, all valid, with a last delivery id that is not the cursor asked with, unless stopped |
| `Client.RealtimeClient.Meanwhile` | src/agentchatme/_realtime.py:1141-1211 | whatever happens while the drain waits is a sequence of moves from outside it |
| `Client.RealtimeClient.FetchPage` | src/agentchatme/_realtime.py:1145-1178 | the page is what the server read at the request, opened when the answer arrives, unless the client was stopped meanwhile |
| `Client.RealtimeClient.DrainPage` | src/agentchatme/_realtime.py:1144-1235 | one page from request to end is a sequence of the drain's moves |
| `Client.RealtimeClient.CommitCursor` | src/agentchatme/_realtime.py:1206-1212 | a commit that fails ends the drain, whether or not it reached the server |
| `Client.RealtimeClient.DrainOfflineEnvelopes` | src/agentchatme/_realtime.py:1132-1235 | the paging loop ends against any positional server, whatever it answers and whatever happens during each of its waits (live frames, timers, fills, new rows, acks, closes, the stop), and is a sequence of the drain's moves, so all laws above apply to it; alone with a server that answers in full it routes every stored message, and with clean hand-overs leaves each delivered |
| `Backoff.JitterBounds` | src/agentchatme/_realtime.py:387-391 | a jittered step lies between three quarters of it, cut, and itself |
| `Backoff.StepsNeverShrink` | src/agentchatme/_realtime.py:1358-1366 | un-jittered steps never shrink with the attempt, not even where the cap widens after attempt 60 |
| `Backoff.StepsDouble` | src/agentchatme/_realtime.py:1358-1366 | the first step is the base, up to the cap; each of the next twenty doubles the one before, up to the cap; then it stays, and after attempt 60 it is 2^20 times the base, up to the cap or five minutes, whichever is more |
| `Backoff.DelayBounds` | src/agentchatme/_realtime.py:1358-1366 | each wait lies between three quarters of its step and that step, which is at most the cap in force |
| `Backoff.AuthRetryBounds` | src/agentchatme/_realtime.py:1368-1370 | the blocked retry comes after 10 to 15 minutes |
| `Lifecycle.Act` | src/agentchatme/_realtime.py:1522-1536 | whatever handlers do in a notification, the socket that is live stays or the client is stopped, a client that was opening, open or waiting still is, at most one transport exists, and new timers keep their pace |
| `Lifecycle.SetPhase` | src/agentchatme/_realtime.py:920-928 | a transition to the state the client is in does nothing; any other keeps all that, through whatever the notified handlers do |
| `Lifecycle.ScheduleReconnect` | src/agentchatme/_realtime.py:1255-1293 | the client ends opening, open, waiting, stopped or with reconnects off; unconnected it ends in backoff or blocked |
| `Lifecycle.BackOff` | src/agentchatme/_realtime.py:1273-1293 | if the handlers leave it unconnected exactly one more timer is waiting, for an attempt newer than all before, at least three quarters of its step away |
| `Lifecycle.ArmRetry` | src/agentchatme/_realtime.py:1278-1293 | the timer armed belongs to that attempt, is the known one, and lies between its floor and the longest wait |
| `Lifecycle.BeginConnect` | src/agentchatme/_realtime.py:652-672 | connect() cancels the known task and nothing else, and the client is opening, not ready, whatever the handlers told of it do |
| `Lifecycle.EndConnect` | src/agentchatme/_realtime.py:672-727 | an opened, a refused and a HELLO-less transport each end live, waiting or stopped |
| `Lifecycle.OpenSocket` | src/agentchatme/_realtime.py:684-688 | an opened transport is the only open socket, unauthenticated, with no close of ours marked |
| `Lifecycle.GiveUpHello` | src/agentchatme/_realtime.py:712-723 | a socket HELLO cannot be written to ends like a refused transport: the client is waiting, live by a handler's own connect(), or stopped |
| `Lifecycle.ConnectNow` | src/agentchatme/_realtime.py:652-727 | a connect() from inside a handler leaves a live attempt alone, and a stopped client stopped |
| `Lifecycle.Dispose` | src/agentchatme/_realtime.py:1459-1518 | disconnect() ends with no socket, no known task, and no handler that will answer |
| `Lifecycle.DropSocket` | src/agentchatme/_realtime.py:1498-1515 | a stop leaves no socket and touches no task; no handler is told when no receive loop runs elsewhere |
| `Connection.AcceptHello` | src/agentchatme/_realtime.py:944-971 | hello.ok clears the verdict and keeps the attempt counter; unless stopped meanwhile the client is ready and authenticated, its stability window open |
| `Connection.AfterClose` | src/agentchatme/_realtime.py:1066-1091 | blocked for a rejection, the normal backoff otherwise, nothing once stopped |
| `Connection.HandleClose` | src/agentchatme/_realtime.py:1031-1091 | after a close the client is opening, open, waiting or stopped, is not ready, and its verdict is exact; which closes count is `Verdicts.RecordedExactly` |
| `Connection.EnterBlocked` | src/agentchatme/_realtime.py:1295-1341 | one error a run of rejections, one `blocked` each rejection, the verdict set; left unconnected, the slow retry is the known task |
| `Connection.SlowDown` | src/agentchatme/_realtime.py:1336-1341 | a client that is opening, live or stopped is left alone; another gets the slow retry in place of the known task |
| `Connection.Drop` | src/agentchatme/_realtime.py:1029-1065 | the close is read before the flags are reset: it counts as a rejection iff sent by the server before hello.ok |
| `Connection.MarkStable` | src/agentchatme/_realtime.py:760-770 | a connection that outlives the stability window starts the attempt counter over and keeps everything else true of the client |
| `Connection.GiveUpSocket` | src/agentchatme/_realtime.py:824-839 | a watchdog's close is marked as ours, and keeps the client live and its verdict exact |
| `Connection.ReconnectAfter` | src/agentchatme/_realtime.py:1343-1356 | a timer that ran out is gone and leaves the client opening, live or stopped |
| `Verdicts.RecordedExactly` | src/agentchatme/_realtime.py:350-377 | a close no handler stops the client at is recorded as blocked iff the server sent it before hello.ok and its code is 4401, 4403, or 1008 with "invalid token", in any letter case, somewhere in the reason; any other leaves the verdict as it was |
| `Verdicts.TooSlowIsNoRefusal` | src/agentchatme/_realtime.py:350-357 | 1008 "HELLO frame required" leaves the verdict as it was |
| `Verdicts.InvalidTokenIsRefusal` | src/agentchatme/_realtime.py:350-357 | 1008 "Invalid token" during the handshake is recorded |
| `Verdicts.RetriesAsRecorded` | src/agentchatme/_realtime.py:1078-1091 | with handlers that only listen, the client is blocked and tries again after 10 to 15 minutes exactly then; after any other close it waits between three quarters of the next attempt's step and that step |
| `Connection.Next` | src/agentchatme/_realtime.py:631-1370 | every event, with any handler answers, keeps soundness, exactness of the verdict and a way forward; with no failing re-entrant connect it keeps the timers tidy |
| `ConnectionLaws.NeverDeadNeverDouble` | src/agentchatme/_realtime.py:652-727 | over all event sequences and handlers: never two transports, and with reconnects on, after a first connect() and before disconnect() never none of opening, live, known task waiting |
| `ConnectionLaws.ExactlyOneWay` | src/agentchatme/_realtime.py:563-565 | with any handlers, but that none told of a move to backoff reconnects and fails: exactly one of transport opening, live socket, one waiting timer, and after disconnect() neither socket nor timer |
| `ConnectionLaws.StateIsTrue` | src/agentchatme/_realtime.py:95-121 | stopped iff disposed, ready iff authenticated, connecting while opening, backoff or blocked while a reconnect task is known, and the stability window only that of an authenticated socket |
| `ConnectionLaws.CutOffIsReported` | src/agentchatme/_realtime.py:108-116 | over all event sequences and handlers, reconnects on: cut off but not stopped, the state is backoff or blocked and the reconnect task the client knows of is waiting |
| `ConnectionLaws.BlockedIsExact` | src/agentchatme/_realtime.py:1078-1091 | until the client is stopped, blocked_reason is the latest server-sent handshake rejection no hello.ok came after; on_error reports once a run of rejections, `blocked` once each; what a rejection is, is `Verdicts.RecordedExactly` |
| `ConnectionLaws.ReasonIsExact` | src/agentchatme/_realtime.py:1043-1091 | stopped or not, blocked_reason is that, iff no rejecting close had on_disconnect handlers that stopped the client while another reason was recorded |
| `ConnectionLaws.OnlyRejectionsBlock` | src/agentchatme/_realtime.py:1029-1091 | no other event, no own close and no close after hello.ok sets or changes it |
| `ConnectionLaws.StoppedForGood` | src/agentchatme/_realtime.py:1459-1518 | a stopped client stays stopped, with no socket, no known task, and the blocked_reason it stopped with |
| `Flapping.FlappingSlowsDown` | src/agentchatme/_realtime.py:748-782 | with any handlers, as long as no reconnect task is lost and no connection survives the stability window, the attempt counter never falls back and n waits take at least the sum of the next n steps less a quarter each |
| `Flapping.FlappingDoubles` | src/agentchatme/_realtime.py:1358-1366 | from a fresh counter, and below the cap, n such waits take at least 3/4 of base * (2^n - 1), less n ms |
| `Flapping.TriesAgainSoon` | src/agentchatme/_realtime.py:1358-1370 | at every point of every run each waiting timer is due within 15 minutes or the cap, where that is longer |
| `Answers.NextSide` | src/agentchatme/_realtime.py:631-1370 | with reconnects on and no task lost so far, the event, the handlers' answers, and whether a close is a rejection and the first of its run decide where the client ends, whether a task is known and whether one is lost: no timer, socket, counter or clock matters |
| `Orphan.ArmedIffCalled` | src/agentchatme/_realtime.py:1289-1293 | whatever else handlers answer, a client left unconnected by the move to backoff has a task then iff the handlers told of it called connect() |
| `Orphan.BackOffLoses` | src/agentchatme/_realtime.py:1255-1293 | with any answers to any notification, scheduling loses a task iff one was lost on the way, or the handlers told of the backoff called connect() and it left the client unconnected |
| `Orphan.OneWayExactly` | src/agentchatme/_realtime.py:563-565 | over all event sequences and all handlers: at most one of opening, live, waiting throughout, and nothing waiting after disconnect(), iff no event's answers play out to a lost task |
| `Orphan.FriendlyLosesNone` | src/agentchatme/_realtime.py:1255-1293 | none is lost when no handler told of a move to backoff reconnects and fails |
| `Orphan.OrphanOutlivesStop` | src/agentchatme/_realtime.py:1465-1489 | a connection that dies, and one backoff handler whose connect() is refused, leave a timer even disconnect() does not cancel |
| `Session.RealtimeConnection.constructor` | src/agentchatme/_realtime.py:563-620 | a new connection object is the initial state |
| `Session.RealtimeConnection.HandleTurn` | src/agentchatme/_realtime.py:631-1370 | one event in place is `Connection.Next`, the step of the laws over runs |
| `Retry.Send` | src/agentchatme/_http.py:401-533 | the loop sends up to the first outcome that cannot be retried or the budget (one request when not eligible, none when it is empty), succeeds iff the last outcome is a 2xx or a wanted 3xx with a location, and waits between as computed, at most five quarters of the cap |
| `Retry.DelayBound` | src/agentchatme/_http.py:186-194 | with Retry-After the wait is that, up to the cap; without it, between three and five quarters of its step: the base, doubled each time, up to the cap |
| `Retry.StopsOnce` | src/agentchatme/_http.py:410-533 | where a scan of outcomes stops is determined by them |
| `Retry.TriesOnExactly` | src/agentchatme/_http.py:164-184 | another attempt follows the k-th iff the request may be repeated (the caller says so, or it has a key, or is no POST or PATCH), k retries are allowed, and every outcome so far was no answer, 408, 425, 429, or 500 to 504 but 501 |
| `Retry.SucceedsExactly` | src/agentchatme/_http.py:453-480 | a call succeeds iff some attempt in the budget does with only retriable failures before it |
| `Pagination.Paginate` | src/agentchatme/_pagination.py:45-61 | against an endpoint serving a list, what is yielded is exactly the items from `start`, cut at `max`; fetches are contiguous, none past the end or past enough, and they end |
| `Pagination.Emit` | src/agentchatme/_pagination.py:53-57 | yields the page's items in order until `max` |
| `Gate.ParseVerdicts` | src/agentchatme/gate.py:295-322 | the loop yields the first usable item of each known card, in answer order |
| `Gate.OnePerCard` | src/agentchatme/gate.py:295-322 | one verdict a card, for exactly the known cards some item is usable for; an earlier unusable item shadows nothing |
| `Gate.ParseIdempotent` | src/agentchatme/gate.py:268-322 | parsing the verdicts as items gives the same verdicts |
| `Gate.SpelledNormal` | src/agentchatme/gate.py:343-355 | each decision's own name, normalised, is that decision |
| `Gate.DecisionRead` | src/agentchatme/gate.py:150-166 | one word in any letter case, with any space around it, is read as what it means, and as nothing if it is no accepted word |
| `Gate.TwoWordsRead` | src/agentchatme/gate.py:343-355 | so are two words apart by any space, as joined by one underscore |
| `Gate.CategoryRead` | src/agentchatme/gate.py:358-362 | a category word is read in any letter case, with any space around it, iff the tray allows it in some letter case |
| `Text.TwoWords` | src/agentchatme/gate.py:343-355 | words apart by any whitespace are matched as joined by one underscore |
| `Gate.ReadBack` | src/agentchatme/gate.py:343-362 | decision and category of a usable item, written as an item, read back the same |
| `Tray.Prepare` | src/agentchatme/gate.py:486-503 | of a doubled id the last card's anchor is kept, and the last card of a typed tray but the first of a raw one |
| `Tray.Run` | src/agentchatme/gate.py:528-571 | empty, fail_closed and decided runs: no record call in the first two; otherwise replies handed back, the rest recorded in order, the outcome of each counted |
| `Tray.Carry` | src/agentchatme/gate.py:543-570 | the loop over the verdicts |
| `Tray.LeftOver` | src/agentchatme/gate.py:661-667 | the cards without a verdict, in tray order |
| `Tray.UndecidedExactly` | src/agentchatme/gate.py:661-667 | the undecided are exactly the cards without a verdict |
| `Tray.Conservation` | src/agentchatme/gate.py:528-571 | on distinct cards every card is in exactly one of reply, recorded, record_failures, undecided, and the counts add up |
| `Tray.CallsAnchored` | src/agentchatme/gate.py:543-567 | each record call is a dismiss or defer verdict of the run about a card of the tray, with that card's anchor |
| `Tray.EntryAnchored` | src/agentchatme/gate.py:392-404 | a reply entry's anchor is its card's anchor iff the tray is typed, or the first and last card with that id have the same anchor |
| `Tray.DistinctAnchored` | src/agentchatme/gate.py:392-404 | on distinct cards it always is |
| `Tray.AnchorDiffers` | src/agentchatme/gate.py:486-503 | a raw tray of two cards "c" with previews "m1" and "m2" gives a reply with the first card and the second anchor |
| `Tray.AnchorExactly` | src/agentchatme/gate.py:459-473 | a card's anchor is the message of its preview, or the newest one where the preview has none; an empty one is none |
| `Tray.RecordedOnce` | src/agentchatme/gate.py:407-418 | however often record() is called, calls go out up to the first success and none after, and that success is kept |
| `Tray.GateReply.Record` | src/agentchatme/gate.py:407-418 | one record() in place: a call exactly when nothing was recorded yet |

## Left out

- Interleavings inside one handler: each routing call, fill completion, flush and
  notification is one step; a fill's start and completion are two. In the original
  the in-order branch awaits its handler before the cursor moves
  (src/agentchatme/_realtime.py:1721-1723) and an idle state is discarded by
  conversation id (1941), so a handler that yields can reorder what these steps keep apart.
- A handler's connect() or disconnect() completes within the notification that called
  it; a connect() started as a separate task is the event `Call`.
- disconnect() is one step; task cancellation and the one-second wait for the receive
  loop are not modelled.
- Seqs are naturals; the original accepts negative integers as well.
- A conversation and a seq determine the message, where `NoLoss` and `DrainNoLoss` say
  so (`Genuine`): a second parked frame with the same seq replaces the first.
- Whether a dispatch settles cleanly is a function of its place in the log; no
  registered handler counts as clean.
- An ack is logged when it is attempted; its arrival at the server is a move of its own.
- The structural checks of a sync row are one flag, `valid`; extraction of ids and seqs
  starts from typed values.
- The order in which a flush visits conversations is a parameter.
- A message id determines the conversation and the seq, where `SightLaws` says so
  (`Named`), and a history endpoint answers with rows of the conversation asked for.
- A legacy server marks rows delivered as it pushes them (953-957): in `Drain` rows are
  marked by ack frames and by the cursor only.
- A receive loop that ends on an exception tells on_error before it closes
  (1013-1016): `Connection.Drop` starts at the close.
- Durations in gap notices, logging, hooks, the instability and long-outage warnings.
- The flag that coalesces concurrent drains: `Drain.Moves` starts one only while none is
  under way. A server that grows without end can keep a drain paging.
- Wake frames, other server frames and the sending of client frames.
- The liveness probe: a watchdog that trips is the event `Trip`, at any time a socket is live.
- The blocked reason is kept as code and reason, not as one stripped string; lower-casing
  and stripping are ASCII.
- `Retry.Send`: the retry caps are naturals, the Retry-After header is given in
  milliseconds (HTTP-date parsing is a library call), and headers, bodies and error
  classes are not modelled.
- The gate's prompt, JSON extraction and code fences: parsing starts from items, and cards
  and categories from those the filters keep.
- The commit of a page and its answer are one move; the page's request and its answer
  are two, with anything in between.
- The asynchronous twins of the retry loop, the paginator and the gate, the REST wrappers,
  typed models and errors, and webhook verification.
