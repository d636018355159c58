/** Runs from an idle gateway in which overlapping operations of one user do harm. */
module GatewayFailures {
  import opened GoInt
  import opened Messages
  import opened GatewaySpec
  import opened GatewayOverlap
  import opened GatewayStrays
  import opened Wrappers

  const USER: int64 := 1
  const BODY: ClientMessage := ClientMessage(5, "text", 1, 2, "hello")
  const LATER: ClientMessage := ClientMessage(6, "text", 1, 2, "again")
  const OPEN: Action := DoOpen(PushMessage(BODY, [USER]), true)

  const FIRST: Records := Opened(IDLE.records, PushMessage(BODY, [USER]), true)
  const SECOND: Records := Opened(FIRST, PushMessage(LATER, [USER]), true)
  const ONE: From := FromDispatch(BODY, [])
  const TWO: From := FromDispatch(LATER, [])

  /** What the harmful runs have in common: the user has connected. */
  function Connect(buffer: nat): seq<Action> {
    [DoConnect(USER, buffer), Advance(0, Works), Advance(0, Works), Advance(0, Works)]
  }

  function Holder(buffer: nat): Conn {
    Conn(USER, [], buffer, true, true, Selecting, [], 0)
  }

  function Connected(buffer: nat): Gateway {
    IDLE.(conns := [Holder(buffer)], store := map[USER := 0], connCount := 1, ops := [Done])
  }

  lemma Goes(actions: seq<Action>, k: nat, g: Gateway, g': Gateway)
    requires k < |actions| && Run(actions[..k]) == g && Step(g, actions[k]) == g'
    ensures Run(actions[..k + 1]) == g'
  {
    hide Step, Run, FreshRun;
    RunOnce(actions[..k], actions[k]);
    assert actions[..k] + [actions[k]] == actions[..k + 1];
  }

  lemma StartsIdle(actions: seq<Action>)
    ensures Run(actions[..0]) == IDLE
  {
    assert actions[..0] == [];
  }

  lemma Arrives(actions: seq<Action>, buffer: nat)
    requires |actions| >= 2 && actions[0] == DoConnect(USER, buffer) && actions[1] == Advance(0, Works)
    ensures Run(actions[..2]) == IDLE.(ops := [Entering(USER, buffer, [], None)])
  {
    hide Run, Refs;
    StartsIdle(actions);
    var g1 := IDLE.(ops := [Arriving(USER, Replacement(buffer))]);
    Goes(actions, 0, IDLE, g1);
    Goes(actions, 1, g1, IDLE.(ops := [Entering(USER, buffer, [], None)]));
  }

  lemma Connects(actions: seq<Action>, buffer: nat)
    requires |actions| >= 4 && actions[..4] == Connect(buffer)
    ensures Run(actions[..4]) == Connected(buffer)
  {
    hide Run, Refs;
    assert forall k | 0 <= k < 4 :: actions[k] == actions[..4][k];
    Arrives(actions, buffer);
    var g1 := IDLE.(ops := [Entering(USER, buffer, [], None)]);
    var g2 := Connected(buffer).(connCount := 0, ops := [Admitting(USER)]);
    Goes(actions, 2, g1, g2);
    Goes(actions, 3, g2, Connected(buffer));
  }

  // ---------- A send on a closed channel ----------

  const HELD: Op := Sending(USER, Push(BODY), 0, ONE)

  /** A dispatch finds the holder and waits; a removal closes its channels; the dispatch sends. */
  const PANIC: seq<Action> :=
    Connect(1) + [OPEN, Advance(1, Works), Advance(1, Works)]
    + [DoRemove(USER), Advance(2, Works), Advance(2, Works), Advance(2, Works), Advance(2, Works), Advance(1, Works)]

  /** The holder in some state, and the operations after the connect. */
  function Serving(c: Conn, ops: seq<Op>): Gateway {
    Connected(1).(conns := [c], ops := [Done] + ops, records := FIRST)
  }

  lemma PanicDispatches()
    ensures Run(PANIC[..7]) == Serving(Holder(1), [HELD])
  {
    hide Run, Refs, Opened;
    Connects(PANIC, 1);
    var g1 := Serving(Holder(1), [Dispatching(BODY, [USER])]);
    var g2 := Serving(Holder(1), [Looking(USER, Push(BODY), ONE)]);
    assert [USER][1..] == [];
    Goes(PANIC, 4, Connected(1), g1);
    Goes(PANIC, 5, g1, g2);
    Goes(PANIC, 6, g2, Serving(Holder(1), [HELD]));
  }

  lemma PanicCloses()
    ensures Run(PANIC[..10])
            == Serving(Holder(1).(closeOpen := false, leavers := 1), [HELD, Leaving(USER, 0, [], Removal, Draining)])
  {
    hide Run, Refs, Opened;
    PanicDispatches();
    var g1 := Serving(Holder(1), [HELD, Arriving(USER, Removal)]);
    var g2 := Serving(Holder(1).(leavers := 1), [HELD, Leaving(USER, 0, [], Removal, Closing)]);
    Goes(PANIC, 7, Serving(Holder(1), [HELD]), g1);
    Goes(PANIC, 8, g1, g2);
    Goes(PANIC, 9, g2, Serving(Holder(1).(closeOpen := false, leavers := 1), [HELD, Leaving(USER, 0, [], Removal, Draining)]));
  }

  /** The process dies although one dispatch and one removal is all that happened. */
  lemma PanicHappens()
    ensures Run(PANIC).crashed
  {
    hide Run, Refs, Opened;
    PanicCloses();
    var c := Holder(1).(closeOpen := false, leavers := 1);
    var g1 := Serving(c, [HELD, Leaving(USER, 0, [], Removal, Draining)]);
    var g2 := Serving(c, [HELD, Leaving(USER, 0, [], Removal, Sealing)]);
    var g3 := Serving(c.(sendOpen := false), [HELD, Leaving(USER, 0, [], Removal, Uncounting)]);
    Goes(PANIC, 10, g1, g2);
    Goes(PANIC, 11, g2, g3);
    Goes(PANIC, 12, g3, g3.(crashed := true));
    assert PANIC[..13] == PANIC;
  }

  // ---------- A message that is counted for good ----------

  /** The dispatch finds the holder; a removal drains its empty channel; the dispatch sends; the
      removal closes the channel and forgets the holder; the writer quits. */
  const LEAVE: seq<Action> :=
    PANIC[..10] + [Advance(2, Works), Advance(1, Works), Advance(1, Works), Advance(1, Works)]
    + [Advance(2, Works), Advance(2, Works), Advance(2, Works), Advance(2, Works), Advance(2, Works), Quit(0)]

  const CLOSING: Conn := Holder(1).(closeOpen := false, leavers := 1)
  const LEFT: Conn := CLOSING.(queue := [Push(BODY)], sendOpen := false)

  lemma LeaveSends()
    ensures Run(LEAVE[..13]) == Serving(CLOSING.(queue := [Push(BODY)]), [Dispatching(BODY, []), Leaving(USER, 0, [], Removal, Sealing)])
                                .(totalPending := 1)
  {
    hide Run, Refs, Opened;
    PanicCloses();
    assert LEAVE[..10] == PANIC[..10];
    var sealing := Leaving(USER, 0, [], Removal, Sealing);
    var g1 := Serving(CLOSING, [HELD, Leaving(USER, 0, [], Removal, Draining)]);
    var g2 := Serving(CLOSING, [HELD, sealing]);
    var g3 := Serving(CLOSING.(queue := [Push(BODY)]), [Counting(USER, ONE), sealing]);
    var g4 := Serving(CLOSING.(queue := [Push(BODY)]), [Dispatching(BODY, []), sealing]).(totalPending := 1);
    Goes(LEAVE, 10, g1, g2);
    assert CLOSING.queue + [Push(BODY)] == [Push(BODY)];
    Goes(LEAVE, 11, g2, g3);
    Goes(LEAVE, 12, g3, g4);
  }

  /** The dispatch is done; the removal is at some stage. */
  function Leftover(op: Op): Gateway {
    Serving(LEFT, [Done, op]).(totalPending := 1)
  }

  lemma LeaveSeals()
    ensures Run(LEAVE[..16]) == Leftover(Leaving(USER, 0, [], Removal, HandingBack))
  {
    hide Run, Refs, Opened;
    LeaveSends();
    var sealing := Leaving(USER, 0, [], Removal, Sealing);
    var g1 := Serving(CLOSING.(queue := [Push(BODY)]), [Dispatching(BODY, []), sealing]).(totalPending := 1);
    var g2 := Serving(CLOSING.(queue := [Push(BODY)]), [Done, sealing]).(totalPending := 1);
    Goes(LEAVE, 13, g1, g2);
    Goes(LEAVE, 14, g2, Leftover(Leaving(USER, 0, [], Removal, Uncounting)));
    Goes(LEAVE, 15, Leftover(Leaving(USER, 0, [], Removal, Uncounting)), Leftover(Leaving(USER, 0, [], Removal, HandingBack)));
  }

  lemma LeaveForgets()
    ensures Run(LEAVE[..18]) == Leftover(Leaving(USER, 0, [], Removal, Discounting)).(store := map[])
  {
    hide Run, Refs, Opened;
    LeaveSeals();
    var g1 := Leftover(Leaving(USER, 0, [], Removal, Forgetting));
    Goes(LEAVE, 16, Leftover(Leaving(USER, 0, [], Removal, HandingBack)), g1);
    assert map[USER := 0] - {USER} == map[];
    Goes(LEAVE, 17, g1, Leftover(Leaving(USER, 0, [], Removal, Discounting)).(store := map[]));
  }

  /** Everybody is done and nobody has panicked, but a message stays in a dead channel and in
      the count for good. */
  lemma LeavingBehindHappens()
    ensures var g := Run(LEAVE);
            && !g.crashed && g.store == map[] && g.connCount == 0 && g.ops == [Done, Done, Done]
            && Dead(g, 0) && g.conns[0].queue == [Push(BODY)] && g.totalPending == 1
  {
    hide Run, Refs, Opened;
    LeaveForgets();
    var g1 := Leftover(Leaving(USER, 0, [], Removal, Discounting)).(store := map[]);
    var g2 := Leftover(Done).(store := map[], connCount := 0);
    Goes(LEAVE, 18, g1, g2);
    Goes(LEAVE, 19, g2, g2.(conns := [LEFT.(writer := Exited)]));
    assert LEAVE[..20] == LEAVE;
  }

  // ---------- A count that goes below zero ----------

  /** Two removals have loaded the holder; the second forgets a user who is gone. */
  const DRIFT: seq<Action> :=
    Connect(1) + [DoRemove(USER), DoRemove(USER), Advance(1, Works), Advance(2, Works)]
    + [Advance(1, Works), Advance(1, Works), Advance(1, Works), Advance(1, Works), Advance(1, Works), Advance(1, Works),
       Advance(1, Works)]
    + [Advance(2, Works), Advance(2, Works), Advance(2, Works), Advance(2, Works)]

  /** The two removals, and the holder they work on. */
  function Removing(c: Conn, first: Op, second: Op): Gateway {
    Connected(1).(conns := [c], ops := [Done, first, second])
  }

  function At(stage: Stage): Op {
    Leaving(USER, 0, [], Removal, stage)
  }

  lemma DriftLoads()
    ensures Run(DRIFT[..8]) == Removing(Holder(1).(leavers := 2), At(Closing), At(Closing))
  {
    hide Run, Refs;
    Connects(DRIFT, 1);
    var g1 := Connected(1).(ops := [Done, Arriving(USER, Removal)]);
    var g2 := Removing(Holder(1), Arriving(USER, Removal), Arriving(USER, Removal));
    var g3 := Removing(Holder(1).(leavers := 1), At(Closing), Arriving(USER, Removal));
    Goes(DRIFT, 4, Connected(1), g1);
    Goes(DRIFT, 5, g1, g2);
    Goes(DRIFT, 6, g2, g3);
    Goes(DRIFT, 7, g3, Removing(Holder(1).(leavers := 2), At(Closing), At(Closing)));
  }

  const CLOSED: Conn := Holder(1).(leavers := 2, closeOpen := false, sendOpen := false)

  lemma DriftCloses()
    ensures Run(DRIFT[..11]) == Removing(CLOSED, At(Uncounting), At(Closing))
  {
    hide Run, Refs;
    DriftLoads();
    var g1 := Removing(Holder(1).(leavers := 2), At(Closing), At(Closing));
    var g2 := Removing(Holder(1).(leavers := 2, closeOpen := false), At(Draining), At(Closing));
    var g3 := Removing(Holder(1).(leavers := 2, closeOpen := false), At(Sealing), At(Closing));
    Goes(DRIFT, 8, g1, g2);
    Goes(DRIFT, 9, g2, g3);
    Goes(DRIFT, 10, g3, Removing(CLOSED, At(Uncounting), At(Closing)));
  }

  /** The store is empty; the operations and the count vary. */
  function Emptied(first: Op, second: Op, connCount: int): Gateway {
    Removing(CLOSED, first, second).(store := map[], connCount := connCount)
  }

  lemma DriftHandsBack()
    ensures Run(DRIFT[..13]) == Removing(CLOSED, At(Forgetting), At(Closing))
  {
    hide Run, Refs;
    DriftCloses();
    var g1 := Removing(CLOSED, At(Uncounting), At(Closing));
    var g2 := Removing(CLOSED, At(HandingBack), At(Closing));
    Goes(DRIFT, 11, g1, g2);
    Goes(DRIFT, 12, g2, Removing(CLOSED, At(Forgetting), At(Closing)));
  }

  lemma DriftForgets()
    ensures Run(DRIFT[..15]) == Emptied(Done, At(Closing), 0)
  {
    hide Run, Refs;
    DriftHandsBack();
    assert map[USER := 0] - {USER} == map[];
    Goes(DRIFT, 13, Removing(CLOSED, At(Forgetting), At(Closing)), Emptied(At(Discounting), At(Closing), 1));
    Goes(DRIFT, 14, Emptied(At(Discounting), At(Closing), 1), Emptied(Done, At(Closing), 0));
  }

  lemma DriftGoesOn()
    ensures Run(DRIFT[..17]) == Emptied(Done, At(Forgetting), 0)
  {
    hide Run, Refs;
    DriftForgets();
    Goes(DRIFT, 15, Emptied(Done, At(Closing), 0), Emptied(Done, At(HandingBack), 0));
    Goes(DRIFT, 16, Emptied(Done, At(HandingBack), 0), Emptied(Done, At(Forgetting), 0));
  }

  /** Two removals of one connection leave the count at minus one. */
  lemma DriftHappens()
    ensures Run(DRIFT).connCount == -1 && Run(DRIFT).store == map[]
  {
    hide Run, Refs;
    DriftGoesOn();
    var none: map<int64, nat> := map[];
    assert none - {USER} == none;
    Goes(DRIFT, 17, Emptied(Done, At(Forgetting), 0), Emptied(Done, At(Discounting), 0));
    Goes(DRIFT, 18, Emptied(Done, At(Discounting), 0), Emptied(Done, Done, -1));
    assert DRIFT[..19] == DRIFT;
  }

  // ---------- A message nobody retries ----------

  const PING: seq<Action> := [DoPing(USER), Advance(1, Works), Advance(1, Works), Advance(1, Works)]

  /** A ping fills the channel, so the first message waits; the retry takes it to the channel
      and finds the list empty; the second message times out; the retry unlists the user. */
  const STRAND: seq<Action> :=
    Connect(1) + PING
    + [OPEN, Advance(2, Works), Advance(2, Works), Advance(2, Fails), Advance(2, Works), Advance(2, Works)]
    + [DoRetry(USER), Advance(3, Works), Receive(0), Advance(3, Works), Advance(3, Works), Advance(3, Works), Advance(3, Works)]
    + [DoOpen(PushMessage(LATER, [USER]), true), Advance(4, Works), Advance(4, Works), Advance(4, Fails), Advance(4, Works),
       Advance(4, Works), Advance(3, Works)]

  function Pinged(buffer: nat): Gateway {
    Connected(buffer).(conns := [Holder(buffer).(queue := [Ping])], totalPending := 1, ops := [Done, Done])
  }

  lemma Pings(actions: seq<Action>, buffer: nat)
    requires |actions| >= 8 && buffer > 0 && actions[..8] == Connect(buffer) + PING
    ensures Run(actions[..8]) == Pinged(buffer)
  {
    hide Run, Refs;
    assert actions[..4] == actions[..8][..4] == Connect(buffer);
    assert forall k | 4 <= k < 8 :: actions[k] == actions[..8][k] == PING[k - 4];
    Connects(actions, buffer);
    var g1 := Connected(buffer).(ops := [Done, Looking(USER, Ping, FromPing)]);
    var g2 := Connected(buffer).(ops := [Done, Sending(USER, Ping, 0, FromPing)]);
    var g3 := Pinged(buffer).(totalPending := 0, ops := [Done, Counting(USER, FromPing)]);
    Goes(actions, 4, Connected(buffer), g1);
    Goes(actions, 5, g1, g2);
    assert Holder(buffer).queue + [Ping] == [Ping];
    Goes(actions, 6, g2, g3);
    Goes(actions, 7, g3, Pinged(buffer));
  }

  lemma StrandTimesOut()
    ensures Run(STRAND[..12]) == Pinged(1).(records := FIRST, ops := [Done, Done, Listing(USER, Push(BODY), ONE)])
  {
    hide Run, Refs, Opened;
    Pings(STRAND, 1);
    var g := Pinged(1).(records := FIRST);
    var g1 := g.(ops := [Done, Done, Dispatching(BODY, [USER])]);
    var g2 := g.(ops := [Done, Done, Looking(USER, Push(BODY), ONE)]);
    var g3 := g.(ops := [Done, Done, Sending(USER, Push(BODY), 0, ONE)]);
    assert [USER][1..] == [];
    Goes(STRAND, 8, Pinged(1), g1);
    Goes(STRAND, 9, g1, g2);
    Goes(STRAND, 10, g2, g3);
    Goes(STRAND, 11, g3, g.(ops := [Done, Done, Listing(USER, Push(BODY), ONE)]));
  }

  /** The first message waits. */
  const WAITS: Gateway :=
    Pinged(1).(records := FIRST, waitSet := {USER}, waiting := map[USER := [Push(BODY)]], ops := [Done, Done, Dispatching(BODY, [])])

  lemma StrandWaits()
    ensures Run(STRAND[..14]) == WAITS
  {
    hide Run, Refs, Opened;
    StrandTimesOut();
    var g1 := Pinged(1).(records := FIRST, ops := [Done, Done, Listing(USER, Push(BODY), ONE)]);
    var g2 := Pinged(1).(records := FIRST, waitSet := {USER}, ops := [Done, Done, Pushing(USER, Push(BODY), ONE)]);
    assert {} + {USER} == {USER};
    Goes(STRAND, 12, g1, g2);
    assert Get(g2.waiting, USER) + [Push(BODY)] == [Push(BODY)];
    Goes(STRAND, 13, g2, WAITS);
  }

  const POPPED: map<int64, seq<Request>> := map[USER := []]

  /** The retry is under way, and the writer has made room for the message. */
  function Retrying(queue: seq<Request>, totalPending: int, op: Op): Gateway {
    WAITS.(conns := [Holder(1).(queue := queue, writer := Taken(Ping), received := [Ping])], totalPending := totalPending,
           waiting := POPPED, ops := WAITS.ops + [op])
  }

  lemma StrandPops()
    ensures Run(STRAND[..16]) == WAITS.(waiting := POPPED, ops := WAITS.ops + [Looking(USER, Push(BODY), FromRetry)])
  {
    hide Run, Refs, Opened;
    StrandWaits();
    var g1 := WAITS.(ops := WAITS.ops + [Popping(USER)]);
    Goes(STRAND, 14, WAITS, g1);
    assert [Push(BODY)][1..] == [];
    Goes(STRAND, 15, g1, WAITS.(waiting := POPPED, ops := WAITS.ops + [Looking(USER, Push(BODY), FromRetry)]));
  }

  lemma StrandMakesRoom()
    ensures Run(STRAND[..17]) == Retrying([], 1, Looking(USER, Push(BODY), FromRetry))
  {
    hide Run, Refs, Opened;
    StrandPops();
    assert [Ping][1..] == [];
    assert Holder(1).received + [Ping] == [Ping];
    Goes(STRAND, 16, WAITS.(waiting := POPPED, ops := WAITS.ops + [Looking(USER, Push(BODY), FromRetry)]),
         Retrying([], 1, Looking(USER, Push(BODY), FromRetry)));
  }

  /** The retried message is in the channel and the list has been found empty. */
  const MEASURED: Gateway := Retrying([Push(BODY)], 2, Unlisting(USER))

  lemma StrandMeasures()
    ensures Run(STRAND[..21]) == MEASURED
  {
    hide Run, Refs, Opened;
    StrandMakesRoom();
    var g1 := Retrying([], 1, Looking(USER, Push(BODY), FromRetry));
    var g2 := Retrying([], 1, Sending(USER, Push(BODY), 0, FromRetry));
    var g3 := Retrying([Push(BODY)], 1, Counting(USER, FromRetry));
    var g4 := Retrying([Push(BODY)], 2, Measuring(USER));
    Goes(STRAND, 17, g1, g2);
    assert Holder(1).queue + [Push(BODY)] == [Push(BODY)];
    Goes(STRAND, 18, g2, g3);
    Goes(STRAND, 19, g3, g4);
    Goes(STRAND, 20, g4, MEASURED);
  }

  lemma StrandTimesOutAgain()
    ensures Run(STRAND[..25]) == MEASURED.(records := SECOND, ops := MEASURED.ops + [Listing(USER, Push(LATER), TWO)])
  {
    hide Run, Refs, Opened;
    StrandMeasures();
    var g := MEASURED.(records := SECOND);
    var g1 := g.(ops := MEASURED.ops + [Dispatching(LATER, [USER])]);
    var g2 := g.(ops := MEASURED.ops + [Looking(USER, Push(LATER), TWO)]);
    var g3 := g.(ops := MEASURED.ops + [Sending(USER, Push(LATER), 0, TWO)]);
    assert [USER][1..] == [];
    Goes(STRAND, 21, MEASURED, g1);
    Goes(STRAND, 22, g1, g2);
    Goes(STRAND, 23, g2, g3);
    Goes(STRAND, 24, g3, g.(ops := MEASURED.ops + [Listing(USER, Push(LATER), TWO)]));
  }

  /** The second message waits, and the retry is about to unlist the user. */
  const FILLED: Gateway :=
    MEASURED.(records := SECOND, waiting := map[USER := [Push(LATER)]], ops := MEASURED.ops + [Dispatching(LATER, [])])

  lemma StrandFills()
    ensures Run(STRAND[..27]) == FILLED
  {
    hide Run, Refs, Opened;
    StrandTimesOutAgain();
    var g1 := MEASURED.(records := SECOND, ops := MEASURED.ops + [Listing(USER, Push(LATER), TWO)]);
    var g2 := MEASURED.(records := SECOND, ops := MEASURED.ops + [Pushing(USER, Push(LATER), TWO)]);
    assert {USER} + {USER} == {USER};
    Goes(STRAND, 25, g1, g2);
    assert POPPED[USER] + [Push(LATER)] == [Push(LATER)];
    Goes(STRAND, 26, g2, FILLED);
  }

  /** One retry and two dispatches leave a message in the list of a user the retry loop no
      longer visits. */
  lemma StrandingHappens()
    ensures Stranded(Run(STRAND), USER) && Run(STRAND).waiting[USER] == [Push(LATER)]
  {
    hide Run, Refs, Opened;
    StrandFills();
    Goes(STRAND, 27, FILLED, FILLED.(waitSet := {}, ops := WAITS.ops + [Done, Dispatching(LATER, [])]));
    assert STRAND[..28] == STRAND;
  }

  // ---------- Requests out of order ----------

  /** A ping and a message are queued; a reconnect drains the ping; the old writer takes the
      message; the reconnect goes on, and the new writer takes the ping. */
  const REORDER: seq<Action> :=
    Connect(2) + PING
    + [OPEN, Advance(2, Works), Advance(2, Works), Advance(2, Works), Advance(2, Works)]
    + [DoConnect(USER, 2), Advance(3, Works), Advance(3, Works), Advance(3, Works), Receive(0), Advance(3, Works), Advance(3, Works)]
    + [Advance(3, Works), Advance(3, Works), Advance(3, Works), Receive(1)]

  /** Both requests are in the channel, in this order. */
  const QUEUED: Gateway :=
    Pinged(2).(conns := [Holder(2).(queue := [Ping, Push(BODY)])], totalPending := 2, records := FIRST,
               ops := [Done, Done, Dispatching(BODY, [])])

  lemma ReorderQueues()
    ensures Run(REORDER[..13]) == QUEUED
  {
    hide Run, Refs, Opened;
    Pings(REORDER, 2);
    var g1 := Pinged(2).(records := FIRST, ops := [Done, Done, Dispatching(BODY, [USER])]);
    var g2 := Pinged(2).(records := FIRST, ops := [Done, Done, Looking(USER, Push(BODY), ONE)]);
    var g3 := Pinged(2).(records := FIRST, ops := [Done, Done, Sending(USER, Push(BODY), 0, ONE)]);
    var g4 := QUEUED.(totalPending := 1, ops := [Done, Done, Counting(USER, ONE)]);
    assert [USER][1..] == [];
    Goes(REORDER, 8, Pinged(2), g1);
    Goes(REORDER, 9, g1, g2);
    Goes(REORDER, 10, g2, g3);
    assert [Ping] + [Push(BODY)] == [Ping, Push(BODY)];
    Goes(REORDER, 11, g3, g4);
    Goes(REORDER, 12, g4, QUEUED);
  }

  function Reconnecting(stage: Stage, hand: seq<Request>): Op {
    Leaving(USER, 0, hand, Replacement(2), stage)
  }

  /** The reconnect, with the old holder in some state. */
  function Moved(c: Conn, op: Op): Gateway {
    QUEUED.(conns := [c], ops := QUEUED.ops + [op])
  }

  const OLD: Conn := Holder(2).(closeOpen := false, leavers := 1)

  lemma ReorderDrains()
    ensures Run(REORDER[..17]) == Moved(OLD.(queue := [Push(BODY)]), Reconnecting(Draining, [Ping]))
  {
    hide Run, Refs, Opened;
    ReorderQueues();
    var c := Holder(2).(queue := [Ping, Push(BODY)]);
    var g1 := Moved(c, Arriving(USER, Replacement(2)));
    var g2 := Moved(c.(leavers := 1), Reconnecting(Closing, []));
    var g3 := Moved(OLD.(queue := [Ping, Push(BODY)]), Reconnecting(Draining, []));
    Goes(REORDER, 13, QUEUED, g1);
    Goes(REORDER, 14, g1, g2);
    Goes(REORDER, 15, g2, g3);
    assert [Ping, Push(BODY)][1..] == [Push(BODY)] && [] + [Ping] == [Ping];
    Goes(REORDER, 16, g3, Moved(OLD.(queue := [Push(BODY)]), Reconnecting(Draining, [Ping])));
  }

  const SPENT: Conn := OLD.(writer := Taken(Push(BODY)), received := [Push(BODY)])

  lemma ReorderReceives()
    ensures Run(REORDER[..20]) == Moved(SPENT.(sendOpen := false), Reconnecting(Discounting, [Ping]))
  {
    hide Run, Refs, Opened;
    ReorderDrains();
    var g1 := Moved(OLD.(queue := [Push(BODY)]), Reconnecting(Draining, [Ping]));
    var g2 := Moved(SPENT, Reconnecting(Draining, [Ping]));
    var g3 := Moved(SPENT, Reconnecting(Sealing, [Ping]));
    assert [Push(BODY)][1..] == [] && [] + [Push(BODY)] == [Push(BODY)];
    Goes(REORDER, 17, g1, g2);
    Goes(REORDER, 18, g2, g3);
    Goes(REORDER, 19, g3, Moved(SPENT.(sendOpen := false), Reconnecting(Discounting, [Ping])));
  }

  const NEW: Conn := Conn(USER, [Ping], 3, true, true, Selecting, [Push(BODY)], 0)

  const REJOINED: Gateway :=
    Moved(SPENT.(sendOpen := false), Admitting(USER)).(
      conns := [SPENT.(sendOpen := false), NEW], store := map[USER := 1], connCount := 0)

  lemma ReorderStores()
    ensures Run(REORDER[..23]) == REJOINED
  {
    hide Run, Refs, Opened;
    ReorderReceives();
    var c := SPENT.(sendOpen := false);
    var g1 := Moved(c, Reconnecting(Discounting, [Ping]));
    var g2 := Moved(c, Reconnecting(Forgetting, [Ping])).(connCount := 0);
    var g3 := Moved(c, Entering(USER, 2, [Ping], Some(0))).(store := map[], connCount := 0);
    Goes(REORDER, 20, g1, g2);
    assert map[USER := 0] - {USER} == map[];
    Goes(REORDER, 21, g2, g3);
    Goes(REORDER, 22, g3, REJOINED);
  }

  /** The ping was queued before the message and is received after it. */
  lemma ReorderHappens()
    ensures |Run(REORDER[..13]).conns| == 1 && Run(REORDER[..13]).conns[0].queue == [Ping, Push(BODY)]
    ensures |Run(REORDER).conns| == 2 && Run(REORDER).conns[1].received == [Push(BODY), Ping]
  {
    hide Run, Refs, Opened;
    ReorderQueues();
    ReorderStores();
    assert [Ping][1..] == [] && [Push(BODY)] + [Ping] == [Push(BODY), Ping];
    var received := NEW.(queue := [], writer := Taken(Ping), received := [Push(BODY), Ping]);
    Goes(REORDER, 23, REJOINED, REJOINED.(conns := [SPENT.(sendOpen := false), received]));
    assert REORDER[..24] == REORDER;
  }
}
