/** Delivery on a gateway as a machine of single actions (internal/gateway/push/manager.go,
    dispatcher.go, channel_redis.go). Dispatches, retries, connects and removals are
    operations that advance one action at a time, in any order; writers receive and write on
    their own. An action touches one shared thing: the store, a channel, a counter, a list. A
    write to a socket or a request to the send service, which nothing on the gateway observes,
    belongs to the report that follows it. GatewayNode proves that the code's operations are
    made of these actions. */
module GatewaySpec {
  import opened GoInt
  import opened Messages
  import opened Wrappers
  import P = PendingTask

  /** What travels through a connection's send channel. `Ping` also stands for the welcome
      message, which belongs to no dispatch. */
  datatype Request = Push(msg: ClientMessage) | Ping

  /** A writer goroutine waits in its select, has received a request that is still counted as
      pending, writes one, or has returned. */
  datatype Writer = Selecting | Taken(r: Request) | Writing(r: Request) | Exited

  /** A connection holder: its buffered channel, whether its two channels are open, and its
      writer. The last two fields only record history: what the writers of this connection and
      of those it replaced have received, and how many removals and reconnects have loaded it. */
  datatype Conn = Conn(
    user: int64, queue: seq<Request>, capacity: nat, sendOpen: bool, closeOpen: bool, writer: Writer,
    received: seq<Request>, leavers: nat)

  // ---------- Operations under way ----------

  /** Who wants a request sent, and what it does afterwards. */
  datatype From = FromDispatch(body: ClientMessage, rest: seq<int64>) | FromRetry | FromPing

  datatype Why = Removal | Replacement(buffer: nat)

  /** How far a removal or reconnect has come with the holder it loaded. A removal goes through
      all stages in this order; a reconnect skips the two in the middle and discounts the holder
      before it forgets it. */
  datatype Stage = Closing | Draining | Sealing | Uncounting | HandingBack | Forgetting | Discounting

  /** The next action of an operation. A `Looking` operation is about to load the user's
      holder, a `Sending` one about to send on the holder it loaded, a `Counting` one has sent
      and is about to count that; `Refused` found none; `Listing` and `Pushing` are the two
      halves of InsertWaitQueue. `Popping`, `Measuring` and `Unlisting` are a retry's LPOP, LLEN
      and RemoveWaitSet. `Arriving` is about to load the holder to remove or replace, `Leaving`
      works on it, `Entering` stores a new one and `Admitting` counts it. */
  datatype Op =
    | Dispatching(body: ClientMessage, rest: seq<int64>)
    | Looking(user: int64, r: Request, from: From)
    | Sending(user: int64, r: Request, h: nat, from: From)
    | Counting(user: int64, from: From)
    | Refused(user: int64, r: Request, from: From)
    | Listing(user: int64, r: Request, from: From)
    | Pushing(user: int64, r: Request, from: From)
    | Popping(user: int64)
    | Measuring(user: int64)
    | Unlisting(user: int64)
    | Arriving(user: int64, why: Why)
    | Leaving(user: int64, h: nat, hand: seq<Request>, why: Why, stage: Stage)
    | Entering(user: int64, buffer: nat, hand: seq<Request>, prior: Option<nat>)
    | Admitting(user: int64)
    | Done

  /** What the outside decides about an action. */
  datatype Choice = Works | Fails | Garbled

  // ---------- The gateway ----------

  /** The counters of live messages; and, for the record, the targets of each message and
      where its copies ended up. */
  datatype Records = Records(
    table: P.Table,
    targets: map<int64, seq<int64>>,
    delivered: map<int64, seq<int64>>,
    astray: map<int64, seq<int64>>)

  /** `conns` holds every holder ever made, `store` the ones users are found by. `waiting` holds
      the lists `wait:push:<user>` and `waitSet` the users to retry. */
  datatype Gateway = Gateway(
    conns: seq<Conn>,
    store: map<int64, nat>,
    connCount: int,
    totalPending: int,
    waiting: map<int64, seq<Request>>,
    waitSet: set<int64>,
    ops: seq<Op>,
    crashed: bool,
    records: Records)

  const IDLE: Gateway :=
    Gateway([], map[], 0, 0, map[], {}, [], false, Records(P.Table(map[], []), map[], map[], map[]))

  function Get<T>(m: map<int64, seq<T>>, k: int64): seq<T> {
    if k in m then m[k] else []
  }

  /** The operation refers to a holder of its own user, is at a stage of its own, and has nothing
      in hand before it drains and when a removal has handed everything back. */
  predicate OpRefers(op: Op, conns: seq<Conn>) {
    && (op.Sending? || op.Leaving? ==> op.h < |conns| && conns[op.h].user == op.user)
    && (op.Leaving? && (op.stage.Closing? || (op.why.Removal? && (op.stage.Forgetting? || op.stage.Discounting?)))
        ==> op.hand == [])
    && (op.Leaving? && op.why.Replacement? ==> !op.stage.Uncounting? && !op.stage.HandingBack?)
    && (op.Entering? && op.prior.Some? ==> op.prior.value < |conns| && conns[op.prior.value].user == op.user)
  }

  ghost predicate Refs(g: Gateway) {
    && (forall u | u in g.store :: g.store[u] < |g.conns| && g.conns[g.store[u]].user == u)
    && (forall i | 0 <= i < |g.ops| :: OpRefers(g.ops[i], g.conns))
  }

  lemma OpReferences(op: Op, conns: seq<Conn>)
    requires OpRefers(op, conns)
    ensures op.Sending? || op.Leaving? ==> op.h < |conns| && conns[op.h].user == op.user
    ensures op.Entering? && op.prior.Some? ==> op.prior.value < |conns| && conns[op.prior.value].user == op.user
  {
  }

  lemma OpIsReferred(g: Gateway, i: nat)
    requires Refs(g) && i < |g.ops|
    ensures OpRefers(g.ops[i], g.conns)
  {
  }

  lemma StoreRefers(g: Gateway, user: int64)
    requires Refs(g)
    ensures user in g.store ==> g.store[user] < |g.conns| && g.conns[g.store[user]].user == user
  {
  }

  // ---------- The fate of a copy ----------

  /** A copy reached the user's socket or was accepted back by the send service. */
  function Deliver(r: Records, id: int64, user: int64): Records {
    r.(delivered := r.delivered[id := Get(r.delivered, id) + [user]], table := r.table.Report(id, false, 1))
  }

  /** A copy is gone, or sits in the in-process fallback that nothing reads. */
  function Stray(r: Records, id: int64, user: int64): Records {
    r.(astray := r.astray[id := Get(r.astray, id) + [user]])
  }

  /** The fate of a request; pings are not accounted for. */
  function Fate(records: Records, user: int64, r: Request, ok: bool): Records {
    if r.Ping? then records
    else if ok then Deliver(records, r.msg.id, user)
    else Stray(records, r.msg.id, user)
  }

  function Finish(g: Gateway, user: int64, r: Request, ok: bool): Gateway {
    g.(records := Fate(g.records, user, r, ok))
  }

  // ---------- Actions ----------

  datatype Action =
    | DoOpen(msg: PushMessage, marshals: bool)
    | DoRetry(user: int64)
    | DoPing(user: int64)
    | DoRemove(user: int64)
    | DoConnect(user: int64, buffer: nat)
    | Advance(op: nat, choice: Choice)
    | Receive(h: nat)
    | Uncount(h: nat)
    | Quit(h: nat)
    | Write(h: nat, ok: bool)

  function Start(g: Gateway, op: Op): Gateway {
    g.(ops := g.ops + [op])
  }

  function Become(g: Gateway, i: nat, op: Op): (after: Gateway)
    requires i < |g.ops|
    ensures after.records == g.records
  {
    g.(ops := g.ops[i := op])
  }

  /** The operation that a request was sent for goes on. */
  function Back(from: From): Op {
    if from.FromDispatch? then Dispatching(from.body, from.rest) else Done
  }

  /** Init, then marshalling, whose failure abandons all targets. */
  function Opened(r: Records, msg: PushMessage, marshals: bool): Records {
    var id := msg.body.id;
    Records(r.table.Init(id, Wrap32(|msg.targets|)), r.targets[id := msg.targets], r.delivered[id := []],
            r.astray[id := if marshals then [] else msg.targets])
  }

  /** Dispatch up to its loop. */
  function Open(g: Gateway, msg: PushMessage, marshals: bool): Gateway {
    var g' := g.(records := Opened(g.records, msg, marshals));
    if marshals then Start(g', Dispatching(msg.body, msg.targets)) else g'
  }

  function Look(g: Gateway, i: nat, user: int64, r: Request, from: From): Gateway
    requires i < |g.ops|
  {
    if user in g.store then Become(g, i, Sending(user, r, g.store[user], from))
    else match from
      case FromDispatch(_, _) => Become(g, i, Refused(user, r, from))
      case FromRetry => Become(g, i, Pushing(user, r, from))
      case FromPing => Become(g, i, Done)
  }

  /** A send on a closed channel panics, also one that waits for room. */
  function Send(g: Gateway, i: nat, user: int64, r: Request, h: nat, from: From, choice: Choice): Gateway
    requires i < |g.ops| && h < |g.conns|
  {
    var c := g.conns[h];
    if !c.sendOpen then g.(crashed := true)
    else if |c.queue| < c.capacity then
      Become(g.(conns := g.conns[h := c.(queue := c.queue + [r])]), i, Counting(user, from))
    else if choice.Works? then g
    else match from
      case FromDispatch(_, _) => Become(g, i, Listing(user, r, from))
      case FromRetry => Become(g, i, Pushing(user, r, from))
      case FromPing => Become(g, i, Done)
  }

  function PushWaiting(g: Gateway, i: nat, user: int64, r: Request, from: From, choice: Choice): Gateway
    requires i < |g.ops|
  {
    if choice.Works? then
      Become(g.(waiting := g.waiting[user := Get(g.waiting, user) + [r]]), i, Back(from))
    else Finish(Become(g, i, Back(from)), user, r, false)
  }

  function Pop(g: Gateway, i: nat, user: int64, choice: Choice): Gateway
    requires i < |g.ops|
  {
    var list := Get(g.waiting, user);
    if choice.Fails? || list == [] then Become(g, i, Done)
    else
      var g' := g.(waiting := g.waiting[user := list[1..]]);
      if choice.Garbled? then Finish(Become(g', i, Done), user, list[0], false)
      else Become(g', i, Looking(user, list[0], FromRetry))
  }

  function Arrive(g: Gateway, i: nat, user: int64, why: Why): Gateway
    requires i < |g.ops| && (user in g.store ==> g.store[user] < |g.conns|)
  {
    if user in g.store then
      var h := g.store[user];
      Become(g.(conns := g.conns[h := g.conns[h].(leavers := g.conns[h].leavers + 1)]), i,
             Leaving(user, h, [], why, Closing))
    else match why
      case Removal => Become(g, i, Done)
      case Replacement(buffer) => Become(g, i, Entering(user, buffer, [], None))
  }

  /** Closing a closed channel panics. RemoveConnection's recover then skips everything up to
      the hand-back, RegisterConnection's only the close. */
  function Close(g: Gateway, i: nat, user: int64, h: nat, why: Why): Gateway
    requires i < |g.ops| && h < |g.conns|
  {
    if g.conns[h].closeOpen then
      Become(g.(conns := g.conns[h := g.conns[h].(closeOpen := false)]), i, Leaving(user, h, [], why, Draining))
    else Become(g, i, Leaving(user, h, [], why, if why.Removal? then HandingBack else Draining))
  }

  /** One turn of the drain loop, which ends at an empty channel, closed or not. */
  function DrainOne(g: Gateway, i: nat, user: int64, h: nat, hand: seq<Request>, why: Why): Gateway
    requires i < |g.ops| && h < |g.conns|
  {
    var c := g.conns[h];
    if c.queue == [] then Become(g, i, Leaving(user, h, hand, why, Sealing))
    else Become(g.(conns := g.conns[h := c.(queue := c.queue[1..])]), i, Leaving(user, h, hand + [c.queue[0]], why, Draining))
  }

  /** Closes the send channel, or recovers. */
  function Seal(g: Gateway, i: nat, user: int64, h: nat, hand: seq<Request>, why: Why): Gateway
    requires i < |g.ops| && h < |g.conns|
  {
    Become(g.(conns := g.conns[h := g.conns[h].(sendOpen := false)]), i,
           Leaving(user, h, hand, why, if why.Removal? then Uncounting else Discounting))
  }

  function HandBackOne(g: Gateway, i: nat, user: int64, h: nat, hand: seq<Request>, why: Why, choice: Choice): Gateway
    requires i < |g.ops|
  {
    if hand == [] then Become(g, i, Leaving(user, h, [], why, Forgetting))
    else Finish(Become(g, i, Leaving(user, h, hand[1..], why, HandingBack)), user, hand[0], choice.Works?)
  }

  /** Deletes whatever holder the user is found by. */
  function Forget(g: Gateway, i: nat, user: int64, h: nat, hand: seq<Request>, why: Why): Gateway
    requires i < |g.ops|
  {
    Become(g.(store := g.store - {user}), i,
           match why
           case Removal => Leaving(user, h, hand, why, Discounting)
           case Replacement(buffer) => Entering(user, buffer, hand, Some(h)))
  }

  function Discount(g: Gateway, i: nat, user: int64, h: nat, hand: seq<Request>, why: Why): Gateway
    requires i < |g.ops|
  {
    Become(g.(connCount := g.connCount - 1), i, if why.Removal? then Done else Leaving(user, h, hand, why, Forgetting))
  }

  function Enter(g: Gateway, i: nat, user: int64, buffer: nat, hand: seq<Request>, prior: Option<nat>): Gateway
    requires i < |g.ops| && (prior.Some? ==> prior.value < |g.conns|)
  {
    var history := if prior.Some? then g.conns[prior.value].received else [];
    Become(g.(conns := g.conns + [Conn(user, hand, buffer + |hand|, true, true, Selecting, history, 0)],
              store := g.store[user := |g.conns|]), i, Admitting(user))
  }

  function Leave(g: Gateway, i: nat, user: int64, h: nat, hand: seq<Request>, why: Why, stage: Stage, choice: Choice): Gateway
    requires i < |g.ops| && h < |g.conns|
  {
    match stage
    case Closing => Close(g, i, user, h, why)
    case Draining => DrainOne(g, i, user, h, hand, why)
    case Sealing => Seal(g, i, user, h, hand, why)
    case Uncounting =>
      Become(g.(totalPending := g.totalPending - |hand|), i, Leaving(user, h, hand, why, HandingBack))
    case HandingBack => HandBackOne(g, i, user, h, hand, why, choice)
    case Forgetting => Forget(g, i, user, h, hand, why)
    case Discounting => Discount(g, i, user, h, hand, why)
  }

  function AdvanceOp(g: Gateway, i: nat, choice: Choice): Gateway
    requires Refs(g) && i < |g.ops|
  {
    match g.ops[i]
    case Dispatching(body, rest) =>
      Become(g, i, if rest == [] then Done else Looking(rest[0], Push(body), FromDispatch(body, rest[1..])))
    case Looking(user, r, from) => Look(g, i, user, r, from)
    case Sending(user, r, h, from) => Send(g, i, user, r, h, from, choice)
    case Counting(user, from) =>
      Become(g.(totalPending := g.totalPending + 1), i, if from.FromRetry? then Measuring(user) else Back(from))
    case Refused(user, r, from) => Finish(Become(g, i, Back(from)), user, r, choice.Works?)
    case Listing(user, r, from) => Become(g.(waitSet := g.waitSet + {user}), i, Pushing(user, r, from))
    case Pushing(user, r, from) => PushWaiting(g, i, user, r, from, choice)
    case Popping(user) => Pop(g, i, user, choice)
    case Measuring(user) =>
      Become(g, i, if choice.Works? && Get(g.waiting, user) == [] then Unlisting(user) else Done)
    case Unlisting(user) => Become(g.(waitSet := g.waitSet - {user}), i, Done)
    case Arriving(user, why) => Arrive(g, i, user, why)
    case Leaving(user, h, hand, why, stage) => Leave(g, i, user, h, hand, why, stage, choice)
    case Entering(user, buffer, hand, prior) => Enter(g, i, user, buffer, hand, prior)
    case Admitting(user) => Become(g.(connCount := g.connCount + 1), i, Done)
    case Done => g
  }

  predicate CanReceive(g: Gateway, h: nat) {
    h < |g.conns| && g.conns[h].writer.Selecting? && g.conns[h].queue != []
  }

  /** The select may take a request even when the other channel has been closed. */
  function ReceiveOne(g: Gateway, h: nat): Gateway
    requires CanReceive(g, h)
  {
    var c := g.conns[h];
    g.(conns := g.conns[h := c.(queue := c.queue[1..], writer := Taken(c.queue[0]), received := c.received + [c.queue[0]])])
  }

  predicate CanUncount(g: Gateway, h: nat) {
    h < |g.conns| && g.conns[h].writer.Taken?
  }

  function UncountOne(g: Gateway, h: nat): Gateway
    requires CanUncount(g, h)
  {
    g.(conns := g.conns[h := g.conns[h].(writer := Writing(g.conns[h].writer.r))], totalPending := g.totalPending - 1)
  }

  predicate CanQuit(g: Gateway, h: nat) {
    h < |g.conns| && g.conns[h].writer.Selecting?
    && (!g.conns[h].closeOpen || (!g.conns[h].sendOpen && g.conns[h].queue == []))
  }

  predicate CanWrite(g: Gateway, h: nat) {
    h < |g.conns| && g.conns[h].writer.Writing?
  }

  /** The writer reports a message after a successful write, and returns after a failed one. */
  function WriteOne(g: Gateway, h: nat, ok: bool): Gateway
    requires CanWrite(g, h)
  {
    var c := g.conns[h];
    Finish(g.(conns := g.conns[h := c.(writer := if ok then Selecting else Exited)]), c.user, c.writer.r, ok)
  }

  /** One action of anybody; a panic ends the process. */
  function Step(g: Gateway, a: Action): Gateway
    requires Refs(g)
  {
    if g.crashed then g else
    match a
    case DoOpen(msg, marshals) => Open(g, msg, marshals)
    case DoRetry(user) => if user in g.waitSet then Start(g, Popping(user)) else g
    case DoPing(user) => Start(g, Looking(user, Ping, FromPing))
    case DoRemove(user) => Start(g, Arriving(user, Removal))
    case DoConnect(user, buffer) => Start(g, Arriving(user, Replacement(buffer)))
    case Advance(i, choice) => if i < |g.ops| then AdvanceOp(g, i, choice) else g
    case Receive(h) => if CanReceive(g, h) then ReceiveOne(g, h) else g
    case Uncount(h) => if CanUncount(g, h) then UncountOne(g, h) else g
    case Quit(h) => if CanQuit(g, h) then g.(conns := g.conns[h := g.conns[h].(writer := Exited)]) else g
    case Write(h, ok) => if CanWrite(g, h) then WriteOne(g, h, ok) else g
  }

  // ---------- References stay valid ----------

  lemma ConnsGrow(g: Gateway, conns: seq<Conn>, op: Op)
    requires OpRefers(op, g.conns) && |g.conns| <= |conns|
    requires forall h | 0 <= h < |g.conns| :: conns[h].user == g.conns[h].user
    ensures OpRefers(op, conns)
  {
  }

  /** Holders are added but never change hands. */
  ghost predicate ConnsKept(g: Gateway, g': Gateway) {
    |g.conns| <= |g'.conns| && forall h | 0 <= h < |g.conns| :: g'.conns[h].user == g.conns[h].user
  }

  /** Only operation `i` moves, and what it and the store refer to exists. */
  ghost predicate RefStep(g: Gateway, g': Gateway, i: nat) {
    && i < |g.ops| == |g'.ops| && (forall j | 0 <= j < |g.ops| && j != i :: g'.ops[j] == g.ops[j])
    && ConnsKept(g, g') && OpRefers(g'.ops[i], g'.conns)
    && (forall u | u in g'.store ::
          (u in g.store && g'.store[u] == g.store[u])
          || (g'.store[u] < |g'.conns| && g'.conns[g'.store[u]].user == u))
  }

  lemma RefsKept(g: Gateway, g': Gateway, i: nat)
    requires Refs(g) && RefStep(g, g', i)
    ensures Refs(g')
  {
    forall j | 0 <= j < |g'.ops| ensures OpRefers(g'.ops[j], g'.conns) {
      if j != i { ConnsGrow(g, g'.conns, g.ops[j]); }
    }
  }

  lemma FinishedRefs(g: Gateway, g': Gateway, i: nat, user: int64, r: Request, ok: bool)
    requires RefStep(g, g', i)
    ensures RefStep(g, Finish(g', user, r, ok), i)
  {
    hide Fate, OpRefers;
  }

  /** A holder is replaced by a later state of itself. */
  lemma SetConnKeeps(g: Gateway, h: nat, c: Conn)
    requires h < |g.conns| && c.user == g.conns[h].user
    ensures ConnsKept(g, g.(conns := g.conns[h := c]))
  {
  }

  lemma BecomeRefs(g: Gateway, g': Gateway, i: nat, op: Op)
    requires i < |g.ops| && OpRefers(op, g'.conns)
    requires g'.ops == g.ops && g'.store == g.store && ConnsKept(g, g')
    ensures RefStep(g, Become(g', i, op), i)
  {
    hide OpRefers;
  }

  lemma SendRefs(g: Gateway, i: nat, user: int64, r: Request, h: nat, from: From, choice: Choice)
    requires i < |g.ops| && OpRefers(g.ops[i], g.conns) && h < |g.conns|
    ensures RefStep(g, Send(g, i, user, r, h, from, choice), i)
  {
    hide RefStep, Become, ConnsKept;
    var c := g.conns[h];
    if !c.sendOpen {
      NothingRefs(g, g.(crashed := true), i);
    } else if |c.queue| < c.capacity {
      var c' := c.(queue := c.queue + [r]);
      SetConnKeeps(g, h, c');
      BecomeRefs(g, g.(conns := g.conns[h := c']), i, Counting(user, from));
    } else {
      NothingRefs(g, g, i);
      ConnsKeptItself(g, g);
      BecomeRefs(g, g, i, if from.FromDispatch? then Listing(user, r, from) else if from.FromRetry? then Pushing(user, r, from) else Done);
    }
  }

  lemma ConnsKeptItself(g: Gateway, g': Gateway)
    requires g'.conns == g.conns
    ensures ConnsKept(g, g')
  {
  }

  lemma LookRefs(g: Gateway, i: nat, user: int64, r: Request, from: From)
    requires Refs(g) && i < |g.ops|
    ensures RefStep(g, Look(g, i, user, r, from), i)
  {
    hide RefStep, Become, ConnsKept;
    ConnsKeptItself(g, g);
    BecomeRefs(g, g, i,
               if user in g.store then Sending(user, r, g.store[user], from)
               else if from.FromDispatch? then Refused(user, r, from)
               else if from.FromRetry? then Pushing(user, r, from)
               else Done);
  }

  lemma PushRefs(g: Gateway, i: nat, user: int64, r: Request, from: From, choice: Choice)
    requires i < |g.ops|
    ensures RefStep(g, PushWaiting(g, i, user, r, from, choice), i)
  {
    hide Finish, RefStep, Become, ConnsKept;
    ConnsKeptItself(g, g);
    ConnsKeptItself(g, g.(waiting := g.waiting[user := Get(g.waiting, user) + [r]]));
    BecomeRefs(g, g, i, Back(from));
    BecomeRefs(g, g.(waiting := g.waiting[user := Get(g.waiting, user) + [r]]), i, Back(from));
    FinishedRefs(g, Become(g, i, Back(from)), i, user, r, false);
  }

  lemma PopRefs(g: Gateway, i: nat, user: int64, choice: Choice)
    requires i < |g.ops|
    ensures RefStep(g, Pop(g, i, user, choice), i)
  {
    hide Finish, RefStep, Become, ConnsKept;
    var list := Get(g.waiting, user);
    ConnsKeptItself(g, g);
    BecomeRefs(g, g, i, Done);
    if list != [] {
      var g1 := g.(waiting := g.waiting[user := list[1..]]);
      ConnsKeptItself(g, g1);
      BecomeRefs(g, g1, i, Done);
      BecomeRefs(g, g1, i, Looking(user, list[0], FromRetry));
      FinishedRefs(g, Become(g1, i, Done), i, user, list[0], false);
    }
  }

  lemma ArriveRefs(g: Gateway, i: nat, user: int64, why: Why)
    requires Refs(g) && i < |g.ops|
    ensures RefStep(g, Arrive(g, i, user, why), i)
  {
    hide RefStep, Become, ConnsKept;
    if user in g.store {
      var h := g.store[user];
      var c := g.conns[h].(leavers := g.conns[h].leavers + 1);
      ChangedConnRefs(g, g.(conns := g.conns[h := c]), i, h, c, Leaving(user, h, [], why, Closing));
    } else {
      ConnsKeptItself(g, g);
      BecomeRefs(g, g, i, match why case Removal => Done case Replacement(buffer) => Entering(user, buffer, [], None));
    }
  }

  lemma ChangedConnRefs(g: Gateway, g': Gateway, i: nat, h: nat, c: Conn, op: Op)
    requires i < |g.ops| && h < |g.conns| && c.user == g.conns[h].user
    requires g'.conns == g.conns[h := c] && g'.ops == g.ops && g'.store == g.store
    requires OpRefers(op, g'.conns)
    ensures RefStep(g, Become(g', i, op), i)
  {
    hide RefStep, Become, OpRefers;
    BecomeRefs(g, g', i, op);
  }

  lemma CloseRefs(g: Gateway, i: nat, user: int64, h: nat, why: Why)
    requires i < |g.ops| && h < |g.conns| && g.conns[h].user == user
    ensures RefStep(g, Close(g, i, user, h, why), i)
  {
    hide RefStep, Become, ConnsKept;
    var c := g.conns[h].(closeOpen := false);
    ChangedConnRefs(g, g.(conns := g.conns[h := c]), i, h, c, Leaving(user, h, [], why, Draining));
    ConnsKeptItself(g, g);
    BecomeRefs(g, g, i, Leaving(user, h, [], why, if why.Removal? then HandingBack else Draining));
  }

  lemma DrainRefs(g: Gateway, i: nat, user: int64, h: nat, hand: seq<Request>, why: Why)
    requires i < |g.ops| && h < |g.conns| && g.conns[h].user == user
    ensures RefStep(g, DrainOne(g, i, user, h, hand, why), i)
  {
    hide RefStep, Become, ConnsKept;
    var c := g.conns[h];
    if c.queue == [] {
      ConnsKeptItself(g, g);
      BecomeRefs(g, g, i, Leaving(user, h, hand, why, Sealing));
    } else {
      var c' := c.(queue := c.queue[1..]);
      ChangedConnRefs(g, g.(conns := g.conns[h := c']), i, h, c', Leaving(user, h, hand + [c.queue[0]], why, Draining));
    }
  }

  lemma SealRefs(g: Gateway, i: nat, user: int64, h: nat, hand: seq<Request>, why: Why)
    requires i < |g.ops| && h < |g.conns| && g.conns[h].user == user
    ensures RefStep(g, Seal(g, i, user, h, hand, why), i)
  {
    hide RefStep, Become, ConnsKept;
    var c := g.conns[h].(sendOpen := false);
    ChangedConnRefs(g, g.(conns := g.conns[h := c]), i, h, c,
                    Leaving(user, h, hand, why, if why.Removal? then Uncounting else Discounting));
  }

  lemma UncountRefs(g: Gateway, i: nat, user: int64, h: nat, hand: seq<Request>, why: Why)
    requires i < |g.ops| && h < |g.conns| && g.conns[h].user == user && why.Removal?
    ensures RefStep(g, Become(g.(totalPending := g.totalPending - |hand|), i, Leaving(user, h, hand, why, HandingBack)), i)
  {
  }

  lemma HandBackRefs(g: Gateway, i: nat, user: int64, h: nat, hand: seq<Request>, why: Why, choice: Choice)
    requires i < |g.ops| && h < |g.conns| && g.conns[h].user == user && why.Removal?
    ensures RefStep(g, HandBackOne(g, i, user, h, hand, why, choice), i)
  {
    hide Finish, RefStep, Become, ConnsKept;
    ConnsKeptItself(g, g);
    BecomeRefs(g, g, i, Leaving(user, h, [], why, Forgetting));
    if hand != [] {
      var next := Leaving(user, h, hand[1..], why, HandingBack);
      BecomeRefs(g, g, i, next);
      FinishedRefs(g, Become(g, i, next), i, user, hand[0], choice.Works?);
    }
  }

  lemma ForgetRefs(g: Gateway, i: nat, user: int64, h: nat, hand: seq<Request>, why: Why)
    requires i < |g.ops| && h < |g.conns| && g.conns[h].user == user && (why.Removal? ==> hand == [])
    ensures RefStep(g, Forget(g, i, user, h, hand, why), i) && RefStep(g, Discount(g, i, user, h, hand, why), i)
  {
  }

  lemma EnterRefs(g: Gateway, i: nat, user: int64, buffer: nat, hand: seq<Request>, prior: Option<nat>)
    requires i < |g.ops| && (prior.Some? ==> prior.value < |g.conns|)
    ensures RefStep(g, Enter(g, i, user, buffer, hand, prior), i)
  {
  }

  lemma LeaveRefs(g: Gateway, i: nat, user: int64, h: nat, hand: seq<Request>, why: Why, stage: Stage, choice: Choice)
    requires i < |g.ops| && g.ops[i] == Leaving(user, h, hand, why, stage) && OpRefers(g.ops[i], g.conns)
    ensures RefStep(g, Leave(g, i, user, h, hand, why, stage, choice), i)
  {
    hide Close, DrainOne, Seal, HandBackOne, Forget, Discount, RefStep, Become;
    match stage
    case Closing => CloseRefs(g, i, user, h, why);
    case Draining => DrainRefs(g, i, user, h, hand, why);
    case Sealing => SealRefs(g, i, user, h, hand, why);
    case Uncounting => UncountRefs(g, i, user, h, hand, why);
    case HandingBack => HandBackRefs(g, i, user, h, hand, why, choice);
    case Forgetting => ForgetRefs(g, i, user, h, hand, why);
    case Discounting => ForgetRefs(g, i, user, h, hand, why);
  }

  lemma AdvanceKeepsRefs(g: Gateway, i: nat, choice: Choice)
    requires Refs(g) && i < |g.ops|
    ensures RefStep(g, AdvanceOp(g, i, choice), i)
  {
    hide Look, Send, PushWaiting, Pop, Arrive, Leave, Enter, Finish, RefStep, Become, ConnsKept;
    assert OpRefers(g.ops[i], g.conns);
    ConnsKeptItself(g, g);
    match g.ops[i]
    case Dispatching(body, rest) =>
      BecomeRefs(g, g, i, if rest == [] then Done else Looking(rest[0], Push(body), FromDispatch(body, rest[1..])));
    case Looking(user, r, from) => LookRefs(g, i, user, r, from);
    case Sending(user, r, h, from) => SendRefs(g, i, user, r, h, from, choice);
    case Counting(user, from) =>
      ConnsKeptItself(g, g.(totalPending := g.totalPending + 1));
      BecomeRefs(g, g.(totalPending := g.totalPending + 1), i, if from.FromRetry? then Measuring(user) else Back(from));
    case Refused(user, r, from) =>
      BecomeRefs(g, g, i, Back(from));
      FinishedRefs(g, Become(g, i, Back(from)), i, user, r, choice.Works?);
    case Listing(user, r, from) =>
      ConnsKeptItself(g, g.(waitSet := g.waitSet + {user}));
      BecomeRefs(g, g.(waitSet := g.waitSet + {user}), i, Pushing(user, r, from));
    case Pushing(user, r, from) => PushRefs(g, i, user, r, from, choice);
    case Popping(user) => PopRefs(g, i, user, choice);
    case Measuring(user) =>
      BecomeRefs(g, g, i, if choice.Works? && Get(g.waiting, user) == [] then Unlisting(user) else Done);
    case Unlisting(user) =>
      ConnsKeptItself(g, g.(waitSet := g.waitSet - {user}));
      BecomeRefs(g, g.(waitSet := g.waitSet - {user}), i, Done);
    case Arriving(user, why) => ArriveRefs(g, i, user, why);
    case Leaving(user, h, hand, why, stage) => LeaveRefs(g, i, user, h, hand, why, stage, choice);
    case Entering(user, buffer, hand, prior) => EnterRefs(g, i, user, buffer, hand, prior);
    case Admitting(user) =>
      ConnsKeptItself(g, g.(connCount := g.connCount + 1));
      BecomeRefs(g, g.(connCount := g.connCount + 1), i, Done);
    case Done => NothingRefs(g, g, i);
  }

  lemma NothingRefs(g: Gateway, g': Gateway, i: nat)
    requires i < |g.ops| && OpRefers(g.ops[i], g.conns)
    requires g'.ops == g.ops && g'.conns == g.conns && g'.store == g.store
    ensures RefStep(g, g', i)
  {
    hide OpRefers;
  }

  lemma StepKeepsRefs(g: Gateway, a: Action)
    requires Refs(g)
    ensures Refs(Step(g, a))
  {
    hide AdvanceOp, Fate, Opened;
    if !g.crashed {
      match a
      case Advance(i, choice) =>
        if i < |g.ops| {
          AdvanceKeepsRefs(g, i, choice);
          RefsKept(g, AdvanceOp(g, i, choice), i);
        }
      case Receive(h) => if CanReceive(g, h) { WriterKeepsRefs(g, Step(g, a), h); }
      case Uncount(h) => if CanUncount(g, h) { WriterKeepsRefs(g, Step(g, a), h); }
      case Quit(h) => if CanQuit(g, h) { WriterKeepsRefs(g, Step(g, a), h); }
      case Write(h, ok) =>
        if CanWrite(g, h) {
          WriterKeepsRefs(g, Step(g, a), h);
        }
      case _ =>
    }
  }

  lemma WriterKeepsRefs(g: Gateway, g': Gateway, h: nat)
    requires Refs(g) && h < |g.conns| && |g'.conns| == |g.conns| && g'.conns == g.conns[h := g'.conns[h]]
    requires g'.conns[h].user == g.conns[h].user && g'.store == g.store && g'.ops == g.ops
    ensures Refs(g')
  {
    forall j | 0 <= j < |g'.ops| ensures OpRefers(g'.ops[j], g'.conns) {
      ConnsGrow(g, g'.conns, g.ops[j]);
    }
  }

  // ---------- Runs ----------

  function Run(actions: seq<Action>): (g: Gateway)
    ensures Refs(g)
  {
    if actions == [] then IDLE
    else
      var g := Run(actions[..|actions| - 1]);
      StepKeepsRefs(g, actions[|actions| - 1]);
      Step(g, actions[|actions| - 1])
  }

  /** A message ID is not dispatched again while its counter is live. */
  predicate Fresh(g: Gateway, a: Action) {
    a.DoOpen? ==> a.msg.body.id !in g.records.table.cells && |a.msg.targets| < TWO_31
  }

  predicate FreshRun(actions: seq<Action>) {
    actions == []
    || (FreshRun(actions[..|actions| - 1]) && Fresh(Run(actions[..|actions| - 1]), actions[|actions| - 1]))
  }

  lemma RunOnce(before: seq<Action>, a: Action)
    ensures Run(before + [a]) == Step(Run(before), a)
    ensures FreshRun(before + [a]) <==> FreshRun(before) && Fresh(Run(before), a)
  {
    assert (before + [a])[..|before|] == before;
  }

  // ---------- The machine's actions, by name ----------

  lemma LookStep(g: Gateway, i: nat, c: Choice)
    requires Refs(g) && !g.crashed && i < |g.ops| && g.ops[i].Looking?
    ensures Refs(Step(g, Advance(i, c))) && Step(g, Advance(i, c)) == Look(g, i, g.ops[i].user, g.ops[i].r, g.ops[i].from)
  {
    hide Refs, Look;
    StepKeepsRefs(g, Advance(i, c));
  }

  lemma SendStep(g: Gateway, i: nat, c: Choice)
    requires Refs(g) && !g.crashed && i < |g.ops| && g.ops[i].Sending?
    ensures g.ops[i].h < |g.conns|
    ensures Refs(Step(g, Advance(i, c)))
    ensures Step(g, Advance(i, c)) == Send(g, i, g.ops[i].user, g.ops[i].r, g.ops[i].h, g.ops[i].from, c)
  {
    hide Send;
    StepKeepsRefs(g, Advance(i, c));
    assert OpRefers(g.ops[i], g.conns);
  }

  lemma RefusedStep(g: Gateway, i: nat, c: Choice)
    requires Refs(g) && !g.crashed && i < |g.ops| && g.ops[i].Refused?
    ensures Refs(Step(g, Advance(i, c)))
    ensures Step(g, Advance(i, c)) == Finish(Become(g, i, Back(g.ops[i].from)), g.ops[i].user, g.ops[i].r, c.Works?)
  {
    hide Refs, Finish, Become;
    StepKeepsRefs(g, Advance(i, c));
  }

  lemma PushStep(g: Gateway, i: nat, c: Choice)
    requires Refs(g) && !g.crashed && i < |g.ops| && g.ops[i].Pushing?
    ensures Refs(Step(g, Advance(i, c)))
    ensures Step(g, Advance(i, c)) == PushWaiting(g, i, g.ops[i].user, g.ops[i].r, g.ops[i].from, c)
  {
    hide Refs, PushWaiting;
    StepKeepsRefs(g, Advance(i, c));
  }

  lemma PopStep(g: Gateway, i: nat, c: Choice)
    requires Refs(g) && !g.crashed && i < |g.ops| && g.ops[i].Popping?
    ensures Refs(Step(g, Advance(i, c))) && Step(g, Advance(i, c)) == Pop(g, i, g.ops[i].user, c)
  {
    hide Refs, Pop;
    StepKeepsRefs(g, Advance(i, c));
  }

  /** The actions that touch no holder and no list. */
  lemma ListStep(g: Gateway, i: nat, c: Choice)
    requires Refs(g) && !g.crashed && i < |g.ops|
    ensures Refs(Step(g, Advance(i, c)))
    ensures g.ops[i].Listing? ==>
              Step(g, Advance(i, c))
              == Become(g.(waitSet := g.waitSet + {g.ops[i].user}), i, Pushing(g.ops[i].user, g.ops[i].r, g.ops[i].from))
    ensures g.ops[i].Measuring? ==>
              Step(g, Advance(i, c))
              == Become(g, i, if c.Works? && Get(g.waiting, g.ops[i].user) == [] then Unlisting(g.ops[i].user) else Done)
    ensures g.ops[i].Counting? ==>
              Step(g, Advance(i, c))
              == Become(g.(totalPending := g.totalPending + 1), i,
                        if g.ops[i].from.FromRetry? then Measuring(g.ops[i].user) else Back(g.ops[i].from))
    ensures g.ops[i].Admitting? ==> Step(g, Advance(i, c)) == Become(g.(connCount := g.connCount + 1), i, Done)
    ensures g.ops[i].Unlisting? ==> Step(g, Advance(i, c)) == Become(g.(waitSet := g.waitSet - {g.ops[i].user}), i, Done)
    ensures g.ops[i].Dispatching? ==>
              var rest := g.ops[i].rest;
              Step(g, Advance(i, c))
              == Become(g, i, if rest == [] then Done else Looking(rest[0], Push(g.ops[i].body), FromDispatch(g.ops[i].body, rest[1..])))
  {
    hide Refs, Become, Look, Send, PushWaiting, Pop, Arrive, Leave, Enter, Finish;
    StepKeepsRefs(g, Advance(i, c));
  }

  lemma ArriveStep(g: Gateway, i: nat, c: Choice)
    requires Refs(g) && !g.crashed && i < |g.ops| && g.ops[i].Arriving?
    ensures g.ops[i].user in g.store ==> g.store[g.ops[i].user] < |g.conns|
    ensures Refs(Step(g, Advance(i, c))) && Step(g, Advance(i, c)) == Arrive(g, i, g.ops[i].user, g.ops[i].why)
  {
    hide Arrive, OpRefers;
    StepKeepsRefs(g, Advance(i, c));
  }

  lemma LeaveStep(g: Gateway, i: nat, c: Choice, user: int64, h: nat, hand: seq<Request>, why: Why, stage: Stage)
    requires Refs(g) && !g.crashed && i < |g.ops| && g.ops[i] == Leaving(user, h, hand, why, stage)
    ensures h < |g.conns| && Refs(Step(g, Advance(i, c)))
    ensures Step(g, Advance(i, c)) == match stage
                                      case Closing => Close(g, i, user, h, why)
                                      case Draining => DrainOne(g, i, user, h, hand, why)
                                      case Sealing => Seal(g, i, user, h, hand, why)
                                      case Uncounting =>
                                        Become(g.(totalPending := g.totalPending - |hand|), i, Leaving(user, h, hand, why, HandingBack))
                                      case HandingBack => HandBackOne(g, i, user, h, hand, why, c)
                                      case Forgetting => Forget(g, i, user, h, hand, why)
                                      case Discounting => Discount(g, i, user, h, hand, why)
  {
    hide Close, DrainOne, Seal, HandBackOne, Forget, Discount, Become;
    StepKeepsRefs(g, Advance(i, c));
    assert OpRefers(g.ops[i], g.conns);
  }

  lemma EnterStep(g: Gateway, i: nat, c: Choice, user: int64, buffer: nat, hand: seq<Request>, prior: Option<nat>)
    requires Refs(g) && !g.crashed && i < |g.ops| && g.ops[i] == Entering(user, buffer, hand, prior)
    ensures prior.Some? ==> prior.value < |g.conns|
    ensures Refs(Step(g, Advance(i, c))) && Step(g, Advance(i, c)) == Enter(g, i, user, buffer, hand, prior)
  {
    hide Enter;
    StepKeepsRefs(g, Advance(i, c));
    assert OpRefers(g.ops[i], g.conns);
  }

  // ---------- Operations that run alone ----------

  /** An operation's next action while nothing else happens: a channel without room then stays
      without room until the send times out. */
  function Turn(g: Gateway, i: nat, c: Choice): Action {
    Advance(i, if i < |g.ops| && g.ops[i].Sending? then Fails else c)
  }

  /** `n` actions of operation `i` in a row; `oracle` decides the k-th of them. */
  function Alone(g: Gateway, i: nat, oracle: nat -> Choice, n: nat): (g': Gateway)
    requires Refs(g)
    ensures Refs(g')
  {
    hide Refs, Step;
    if n == 0 then g
    else
      var before := Alone(g, i, oracle, n - 1);
      StepKeepsRefs(before, Turn(before, i, oracle(n - 1)));
      Step(before, Turn(before, i, oracle(n - 1)))
  }

  lemma AloneOnce(g: Gateway, i: nat, oracle: nat -> Choice, n: nat, before: Gateway)
    requires Refs(g) && before == Alone(g, i, oracle, n) && i < |before.ops|
    ensures Refs(before)
    ensures Alone(g, i, oracle, n + 1) == Step(before, Advance(i, if before.ops[i].Sending? then Fails else oracle(n)))
  {
    hide Refs, Step;
  }
}
