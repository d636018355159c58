/** The gateway's count of pending requests over every run of GatewaySpec's actions. */
module GatewayTotals {
  import opened GoInt
  import opened Messages
  import opened GatewaySpec
  import opened Wrappers

  /** The requests in a channel, and the one its writer has received and not yet uncounted. */
  function Queued(c: Conn): nat {
    |c.queue| + if c.writer.Taken? then 1 else 0
  }

  function QueueSum(conns: seq<Conn>): nat {
    if conns == [] then 0 else QueueSum(conns[..|conns| - 1]) + Queued(conns[|conns| - 1])
  }

  /** The drained requests that an operation holds and that are still counted - a removal stops
      counting them before it hands them back, a reconnect never does - less the one it has sent
      and not yet counted. */
  function Held(op: Op): int {
    match op
    case Counting(_, _) => -1
    case Leaving(_, _, hand, _, stage) => if stage.HandingBack? then 0 else |hand|
    case Entering(_, _, hand, _) => |hand|
    case _ => 0
  }

  function HeldSum(ops: seq<Op>): int {
    if ops == [] then 0 else HeldSum(ops[..|ops| - 1]) + Held(ops[|ops| - 1])
  }

  /** How far the counter is from what it counts. */
  function Gap(g: Gateway): int {
    g.totalPending - QueueSum(g.conns) - HeldSum(g.ops)
  }

  ghost predicate WithinCapacity(conns: seq<Conn>) {
    forall h | 0 <= h < |conns| :: |conns[h].queue| <= conns[h].capacity
  }

  ghost predicate Balances(g: Gateway, g': Gateway) {
    Gap(g') == Gap(g) && WithinCapacity(g'.conns)
  }

  lemma {:induction false} QueueSumUpdate(conns: seq<Conn>, h: nat, c: Conn)
    requires h < |conns|
    ensures QueueSum(conns[h := c]) + Queued(conns[h]) == QueueSum(conns) + Queued(c)
  {
    hide Queued;
    var last := |conns| - 1;
    if h == last {
      assert conns[h := c][..last] == conns[..last];
    } else {
      assert conns[h := c][..last] == conns[..last][h := c];
      QueueSumUpdate(conns[..last], h, c);
    }
  }

  lemma QueueSumAppend(conns: seq<Conn>, c: Conn)
    ensures QueueSum(conns + [c]) == QueueSum(conns) + Queued(c)
  {
    assert (conns + [c])[..|conns|] == conns;
  }

  lemma {:induction false} HeldSumUpdate(ops: seq<Op>, i: nat, op: Op)
    requires i < |ops|
    ensures HeldSum(ops[i := op]) + Held(ops[i]) == HeldSum(ops) + Held(op)
  {
    hide Held;
    var last := |ops| - 1;
    if i == last {
      assert ops[i := op][..last] == ops[..last];
    } else {
      assert ops[i := op][..last] == ops[..last][i := op];
      HeldSumUpdate(ops[..last], i, op);
    }
  }

  lemma HeldSumAppend(ops: seq<Op>, op: Op)
    ensures HeldSum(ops + [op]) == HeldSum(ops) + Held(op)
  {
    hide Held;
    assert (ops + [op])[..|ops|] == ops;
  }

  // ---------- Every action ----------

  lemma BecomeBalances(g: Gateway, g1: Gateway, i: nat, op: Op)
    requires i < |g.ops| && g1.ops == g.ops && WithinCapacity(g1.conns)
    requires g1.totalPending - QueueSum(g1.conns) - Held(op) == g.totalPending - QueueSum(g.conns) - Held(g.ops[i])
    ensures Balances(g, Become(g1, i, op))
  {
    hide QueueSum, HeldSum, Held, WithinCapacity;
    HeldSumUpdate(g.ops, i, op);
  }

  /** Operations that hold nothing, and touch no queue. */
  lemma LightBalances(g: Gateway, g1: Gateway, i: nat, op: Op)
    requires i < |g.ops| && g1.ops == g.ops && g1.conns == g.conns && g1.totalPending == g.totalPending
    requires WithinCapacity(g.conns) && Held(op) == Held(g.ops[i])
    ensures Balances(g, Become(g1, i, op))
  {
    hide QueueSum, HeldSum, Held, WithinCapacity, Become;
    BecomeBalances(g, g1, i, op);
  }

  lemma FinishBalances(g: Gateway, g1: Gateway, user: int64, r: Request, ok: bool)
    requires Balances(g, g1)
    ensures Balances(g, Finish(g1, user, r, ok))
  {
    hide QueueSum, HeldSum, WithinCapacity, Fate;
  }

  /** A holder changes. */
  lemma SetConnBalances(g: Gateway, g1: Gateway, h: nat, c: Conn)
    requires h < |g.conns| && WithinCapacity(g.conns) && g1.conns == g.conns[h := c]
    requires |c.queue| <= c.capacity
    ensures QueueSum(g1.conns) + Queued(g.conns[h]) == QueueSum(g.conns) + Queued(c) && WithinCapacity(g1.conns)
  {
    hide QueueSum;
    QueueSumUpdate(g.conns, h, c);
  }

  lemma LookBalances(g: Gateway, i: nat, user: int64, r: Request, from: From)
    requires i < |g.ops| && g.ops[i] == Looking(user, r, from) && WithinCapacity(g.conns)
    ensures Balances(g, Look(g, i, user, r, from))
  {
    hide Balances, WithinCapacity, Become;
    LightBalances(g, g, i, if user in g.store then Sending(user, r, g.store[user], from)
                           else match from
                             case FromDispatch(_, _) => Refused(user, r, from)
                             case FromRetry => Pushing(user, r, from)
                             case FromPing => Done);
  }

  lemma SendBalances(g: Gateway, i: nat, user: int64, r: Request, h: nat, from: From, choice: Choice)
    requires i < |g.ops| && g.ops[i] == Sending(user, r, h, from) && h < |g.conns| && WithinCapacity(g.conns)
    ensures Balances(g, Send(g, i, user, r, h, from, choice))
  {
    hide WithinCapacity, Become, QueueSum, HeldSum;
    var c := g.conns[h];
    if c.sendOpen && |c.queue| < c.capacity {
      var c' := c.(queue := c.queue + [r]);
      SetConnBalances(g, g.(conns := g.conns[h := c']), h, c');
      BecomeBalances(g, g.(conns := g.conns[h := c']), i, Counting(user, from));
    } else if c.sendOpen && !choice.Works? {
      LightBalances(g, g, i, match from
                             case FromDispatch(_, _) => Listing(user, r, from)
                             case FromRetry => Pushing(user, r, from)
                             case FromPing => Done);
    }
  }

  lemma CountBalances(g: Gateway, i: nat, user: int64, from: From)
    requires i < |g.ops| && g.ops[i] == Counting(user, from) && WithinCapacity(g.conns)
    ensures Balances(g, Become(g.(totalPending := g.totalPending + 1), i, if from.FromRetry? then Measuring(user) else Back(from)))
  {
    hide Balances, WithinCapacity, Become, QueueSum;
    BecomeBalances(g, g.(totalPending := g.totalPending + 1), i, if from.FromRetry? then Measuring(user) else Back(from));
  }

  lemma PushBalances(g: Gateway, i: nat, user: int64, r: Request, from: From, choice: Choice)
    requires i < |g.ops| && Held(g.ops[i]) == 0 && WithinCapacity(g.conns)
    ensures Balances(g, PushWaiting(g, i, user, r, from, choice))
    ensures Balances(g, Finish(Become(g, i, Back(from)), user, r, choice.Works?))
  {
    hide Balances, WithinCapacity, Become, Finish;
    LightBalances(g, g, i, Back(from));
    LightBalances(g, g.(waiting := g.waiting[user := Get(g.waiting, user) + [r]]), i, Back(from));
    FinishBalances(g, Become(g, i, Back(from)), user, r, false);
    FinishBalances(g, Become(g, i, Back(from)), user, r, choice.Works?);
  }

  lemma PopBalances(g: Gateway, i: nat, user: int64, choice: Choice)
    requires i < |g.ops| && Held(g.ops[i]) == 0 && WithinCapacity(g.conns)
    ensures Balances(g, Pop(g, i, user, choice))
  {
    hide Balances, WithinCapacity, Become, Finish;
    LightBalances(g, g, i, Done);
    var list := Get(g.waiting, user);
    if list != [] {
      var g1 := g.(waiting := g.waiting[user := list[1..]]);
      LightBalances(g, g1, i, Done);
      LightBalances(g, g1, i, Looking(user, list[0], FromRetry));
      FinishBalances(g, Become(g1, i, Done), user, list[0], false);
    }
  }

  lemma ArriveBalances(g: Gateway, i: nat, user: int64, why: Why)
    requires i < |g.ops| && g.ops[i] == Arriving(user, why) && WithinCapacity(g.conns) && (user in g.store ==> g.store[user] < |g.conns|)
    ensures Balances(g, Arrive(g, i, user, why))
  {
    hide Balances, WithinCapacity, Become, QueueSum;
    if user in g.store {
      var h := g.store[user];
      var c := g.conns[h].(leavers := g.conns[h].leavers + 1);
      RoomFor(g, h);
      SetConnBalances(g, g.(conns := g.conns[h := c]), h, c);
      BecomeBalances(g, g.(conns := g.conns[h := c]), i, Leaving(user, h, [], why, Closing));
    } else {
      LightBalances(g, g, i, match why case Removal => Done case Replacement(buffer) => Entering(user, buffer, [], None));
    }
  }

  lemma RoomFor(g: Gateway, h: nat)
    requires WithinCapacity(g.conns) && h < |g.conns|
    ensures |g.conns[h].queue| <= g.conns[h].capacity
  {
  }

  lemma CloseBalances(g: Gateway, i: nat, user: int64, h: nat, why: Why)
    requires i < |g.ops| && g.ops[i] == Leaving(user, h, [], why, Closing) && h < |g.conns| && WithinCapacity(g.conns)
    ensures Balances(g, Close(g, i, user, h, why))
  {
    hide Balances, WithinCapacity, Become, QueueSum;
    var c := g.conns[h].(closeOpen := false);
    RoomFor(g, h);
    SetConnBalances(g, g.(conns := g.conns[h := c]), h, c);
    BecomeBalances(g, g.(conns := g.conns[h := c]), i, Leaving(user, h, [], why, Draining));
    LightBalances(g, g, i, Leaving(user, h, [], why, if why.Removal? then HandingBack else Draining));
  }

  lemma DrainBalances(g: Gateway, i: nat, user: int64, h: nat, hand: seq<Request>, why: Why)
    requires i < |g.ops| && g.ops[i] == Leaving(user, h, hand, why, Draining) && h < |g.conns| && WithinCapacity(g.conns)
    ensures Balances(g, DrainOne(g, i, user, h, hand, why))
  {
    hide Balances, WithinCapacity, Become, QueueSum;
    var c := g.conns[h];
    RoomFor(g, h);
    if c.queue == [] {
      LightBalances(g, g, i, Leaving(user, h, hand, why, Sealing));
    } else {
      var c' := c.(queue := c.queue[1..]);
      SetConnBalances(g, g.(conns := g.conns[h := c']), h, c');
      BecomeBalances(g, g.(conns := g.conns[h := c']), i, Leaving(user, h, hand + [c.queue[0]], why, Draining));
    }
  }

  lemma SealBalances(g: Gateway, i: nat, user: int64, h: nat, hand: seq<Request>, why: Why)
    requires i < |g.ops| && g.ops[i] == Leaving(user, h, hand, why, Sealing) && h < |g.conns| && WithinCapacity(g.conns)
    ensures Balances(g, Seal(g, i, user, h, hand, why))
  {
    hide Balances, WithinCapacity, Become, QueueSum;
    var c := g.conns[h].(sendOpen := false);
    RoomFor(g, h);
    SetConnBalances(g, g.(conns := g.conns[h := c]), h, c);
    BecomeBalances(g, g.(conns := g.conns[h := c]), i, Leaving(user, h, hand, why, if why.Removal? then Uncounting else Discounting));
  }

  lemma UncountBalances(g: Gateway, i: nat, user: int64, h: nat, hand: seq<Request>, why: Why)
    requires i < |g.ops| && g.ops[i] == Leaving(user, h, hand, why, Uncounting) && WithinCapacity(g.conns)
    ensures Balances(g, Become(g.(totalPending := g.totalPending - |hand|), i, Leaving(user, h, hand, why, HandingBack)))
  {
    hide Balances, WithinCapacity, Become, QueueSum;
    BecomeBalances(g, g.(totalPending := g.totalPending - |hand|), i, Leaving(user, h, hand, why, HandingBack));
  }

  lemma HandBackBalances(g: Gateway, i: nat, user: int64, h: nat, hand: seq<Request>, why: Why, choice: Choice)
    requires i < |g.ops| && g.ops[i] == Leaving(user, h, hand, why, HandingBack) && WithinCapacity(g.conns)
    ensures Balances(g, HandBackOne(g, i, user, h, hand, why, choice))
  {
    hide Balances, WithinCapacity, Become, Finish;
    LightBalances(g, g, i, Leaving(user, h, [], why, Forgetting));
    if hand != [] {
      LightBalances(g, g, i, Leaving(user, h, hand[1..], why, HandingBack));
      FinishBalances(g, Become(g, i, Leaving(user, h, hand[1..], why, HandingBack)), user, hand[0], choice.Works?);
    }
  }

  lemma ForgetBalances(g: Gateway, i: nat, user: int64, h: nat, hand: seq<Request>, why: Why)
    requires i < |g.ops| && g.ops[i] == Leaving(user, h, hand, why, Forgetting) && WithinCapacity(g.conns)
    requires why.Removal? ==> hand == []
    ensures Balances(g, Forget(g, i, user, h, hand, why))
  {
    hide Balances, WithinCapacity, Become;
    LightBalances(g, g.(store := g.store - {user}), i,
                  match why
                  case Removal => Leaving(user, h, hand, why, Discounting)
                  case Replacement(buffer) => Entering(user, buffer, hand, Some(h)));
  }

  lemma DiscountBalances(g: Gateway, i: nat, user: int64, h: nat, hand: seq<Request>, why: Why)
    requires i < |g.ops| && g.ops[i] == Leaving(user, h, hand, why, Discounting) && WithinCapacity(g.conns)
    requires why.Removal? ==> hand == []
    ensures Balances(g, Discount(g, i, user, h, hand, why))
  {
    hide Balances, WithinCapacity, Become;
    LightBalances(g, g.(connCount := g.connCount - 1), i, if why.Removal? then Done else Leaving(user, h, hand, why, Forgetting));
  }

  lemma EnterBalances(g: Gateway, i: nat, user: int64, buffer: nat, hand: seq<Request>, prior: Option<nat>)
    requires i < |g.ops| && g.ops[i] == Entering(user, buffer, hand, prior) && (prior.Some? ==> prior.value < |g.conns|)
    requires WithinCapacity(g.conns)
    ensures Balances(g, Enter(g, i, user, buffer, hand, prior))
  {
    hide Balances, Become, QueueSum;
    var history := if prior.Some? then g.conns[prior.value].received else [];
    var c := Conn(user, hand, buffer + |hand|, true, true, Selecting, history, 0);
    QueueSumAppend(g.conns, c);
    BecomeBalances(g, g.(conns := g.conns + [c], store := g.store[user := |g.conns|]), i, Admitting(user));
  }

  lemma LeaveBalances(g: Gateway, i: nat, user: int64, h: nat, hand: seq<Request>, why: Why, stage: Stage, choice: Choice)
    requires i < |g.ops| && g.ops[i] == Leaving(user, h, hand, why, stage) && OpRefers(g.ops[i], g.conns) && WithinCapacity(g.conns)
    ensures Balances(g, Leave(g, i, user, h, hand, why, stage, choice))
  {
    hide Balances, WithinCapacity, Close, DrainOne, Seal, HandBackOne, Forget, Discount, Become;
    match stage
    case Closing => CloseBalances(g, i, user, h, why);
    case Draining => DrainBalances(g, i, user, h, hand, why);
    case Sealing => SealBalances(g, i, user, h, hand, why);
    case Uncounting => UncountBalances(g, i, user, h, hand, why);
    case HandingBack => HandBackBalances(g, i, user, h, hand, why, choice);
    case Forgetting => ForgetBalances(g, i, user, h, hand, why);
    case Discounting => DiscountBalances(g, i, user, h, hand, why);
  }

  lemma AdvanceBalances(g: Gateway, i: nat, choice: Choice)
    requires Refs(g) && i < |g.ops| && WithinCapacity(g.conns)
    ensures Balances(g, AdvanceOp(g, i, choice))
  {
    hide Balances, WithinCapacity, Look, Send, PushWaiting, Pop, Arrive, Leave, Enter, Finish, Become, OpRefers;
    assert OpRefers(g.ops[i], g.conns);
    OpReferences(g.ops[i], g.conns);
    match g.ops[i]
    case Dispatching(body, rest) =>
      LightBalances(g, g, i, if rest == [] then Done else Looking(rest[0], Push(body), FromDispatch(body, rest[1..])));
    case Looking(user, r, from) => LookBalances(g, i, user, r, from);
    case Sending(user, r, h, from) => SendBalances(g, i, user, r, h, from, choice);
    case Counting(user, from) => CountBalances(g, i, user, from);
    case Refused(user, r, from) => PushBalances(g, i, user, r, from, choice);
    case Listing(user, r, from) => LightBalances(g, g.(waitSet := g.waitSet + {user}), i, Pushing(user, r, from));
    case Pushing(user, r, from) => PushBalances(g, i, user, r, from, choice);
    case Popping(user) => PopBalances(g, i, user, choice);
    case Measuring(user) =>
      LightBalances(g, g, i, if choice.Works? && Get(g.waiting, user) == [] then Unlisting(user) else Done);
    case Unlisting(user) => LightBalances(g, g.(waitSet := g.waitSet - {user}), i, Done);
    case Arriving(user, why) => ArriveBalances(g, i, user, why);
    case Leaving(user, h, hand, why, stage) => LeaveBalances(g, i, user, h, hand, why, stage, choice);
    case Entering(user, buffer, hand, prior) => EnterBalances(g, i, user, buffer, hand, prior);
    case Admitting(_) => LightBalances(g, g.(connCount := g.connCount + 1), i, Done);
    case Done => NothingBalances(g);
  }

  lemma NothingBalances(g: Gateway)
    requires WithinCapacity(g.conns)
    ensures Balances(g, g)
  {
  }

  lemma StartBalances(g: Gateway, op: Op)
    requires WithinCapacity(g.conns) && Held(op) == 0
    ensures Balances(g, Start(g, op))
  {
    hide QueueSum, HeldSum, Held, WithinCapacity;
    HeldSumAppend(g.ops, op);
  }

  lemma OpenBalances(g: Gateway, msg: PushMessage, marshals: bool)
    requires WithinCapacity(g.conns)
    ensures Balances(g, Open(g, msg, marshals))
  {
    hide QueueSum, HeldSum, WithinCapacity, Opened;
    HeldSumAppend(g.ops, Dispatching(msg.body, msg.targets));
  }

  lemma WriterBalances(g: Gateway, a: Action)
    requires WithinCapacity(g.conns) && (a.Receive? || a.Uncount? || a.Quit? || a.Write?) && Refs(g)
    ensures Balances(g, Step(g, a))
  {
    hide QueueSum, HeldSum, WithinCapacity, Fate, Refs;
    match a
    case Receive(h) =>
      if CanReceive(g, h) {
        RoomFor(g, h);
        SetConnBalances(g, ReceiveOne(g, h), h, ReceiveOne(g, h).conns[h]);
      }
    case Uncount(h) =>
      if CanUncount(g, h) {
        RoomFor(g, h);
        SetConnBalances(g, UncountOne(g, h), h, UncountOne(g, h).conns[h]);
      }
    case Quit(h) =>
      if CanQuit(g, h) {
        RoomFor(g, h);
        SetConnBalances(g, g.(conns := g.conns[h := g.conns[h].(writer := Exited)]), h, g.conns[h].(writer := Exited));
      }
    case Write(h, ok) =>
      if CanWrite(g, h) {
        RoomFor(g, h);
        SetConnBalances(g, WriteOne(g, h, ok), h, WriteOne(g, h, ok).conns[h]);
      }
  }

  lemma StepBalances(g: Gateway, a: Action)
    requires Refs(g) && WithinCapacity(g.conns)
    ensures Balances(g, Step(g, a))
  {
    hide Balances, WithinCapacity, AdvanceOp, Open, Start, ReceiveOne, UncountOne, WriteOne;
    NothingBalances(g);
    if !g.crashed {
      match a
      case DoOpen(msg, marshals) => OpenBalances(g, msg, marshals);
      case DoRetry(user) => StartBalances(g, Popping(user));
      case DoPing(user) => StartBalances(g, Looking(user, Ping, FromPing));
      case DoRemove(user) => StartBalances(g, Arriving(user, Removal));
      case DoConnect(user, buffer) => StartBalances(g, Arriving(user, Replacement(buffer)));
      case Advance(i, choice) => if i < |g.ops| { AdvanceBalances(g, i, choice); }
      case Receive(_) => WriterBalances(g, a);
      case Uncount(_) => WriterBalances(g, a);
      case Quit(_) => WriterBalances(g, a);
      case Write(_, _) => WriterBalances(g, a);
    }
  }

  // ---------- Main result ----------

  ghost predicate Exact(g: Gateway) {
    Gap(g) == 0 && WithinCapacity(g.conns)
  }

  lemma StepKeepsExact(g: Gateway, a: Action)
    requires Refs(g) && Exact(g)
    ensures Exact(Step(g, a))
  {
    hide Step, Refs, WithinCapacity, Gap;
    StepBalances(g, a);
  }

  lemma IdleIsExact()
    ensures Exact(IDLE)
  {
  }

  lemma {:induction false} RunIsExact(actions: seq<Action>)
    ensures Exact(Run(actions))
  {
    hide Step, Exact, Refs;
    if actions == [] {
      IdleIsExact();
    } else {
      RunIsExact(actions[..|actions| - 1]);
      StepKeepsExact(Run(actions[..|actions| - 1]), actions[|actions| - 1]);
    }
  }

  /** In every run, however dispatches, retries, writers, removals and reconnects overlap,
      totalPending is the number of requests in send channels, plus those a writer has received
      and not yet uncounted, plus those a removal or a reconnect has drained and not yet let go
      of, less those sent and not yet counted; and no channel holds more than its capacity. A
      reconnect thus carries its requests over without counting them again, and a new channel
      never blocks it. */
  lemma TotalsAreExact(actions: seq<Action>)
    ensures var g := Run(actions);
            && g.totalPending == QueueSum(g.conns) + HeldSum(g.ops)
            && forall h | 0 <= h < |g.conns| :: |g.conns[h].queue| <= g.conns[h].capacity
  {
    hide Run, QueueSum, HeldSum;
    RunIsExact(actions);
  }
}
