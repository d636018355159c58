/** Conservation of message copies on a gateway, over every run of GatewaySpec's actions. */
module GatewayDelivery {
  import opened GoInt
  import opened Messages
  import opened GatewaySpec
  import opened Wrappers

  // ---------- Where copies are ----------

  /** Whether the request is a copy of message `id`. */
  function CopyOf(r: Request, id: int64): nat {
    if r.Push? && r.msg.id == id then 1 else 0
  }

  function Copies(q: seq<Request>, id: int64): nat {
    if q == [] then 0 else CopyOf(q[0], id) + Copies(q[1..], id)
  }

  /** The copies of `id` for `user` in a channel or in a writer's hands. */
  function ConnCopies(c: Conn, id: int64, user: int64): nat {
    if c.user != user then 0
    else Copies(c.queue, id) + if c.writer.Taken? || c.writer.Writing? then CopyOf(c.writer.r, id) else 0
  }

  function FromCopies(from: From, id: int64, user: int64): nat {
    if from.FromDispatch? && from.body.id == id then multiset(from.rest)[user] else 0
  }

  function Mine(owner: int64, user: int64, copies: nat): nat {
    if owner == user then copies else 0
  }

  /** The copies an operation still has to serve or has in hand. */
  function OpCopies(op: Op, id: int64, user: int64): nat {
    match op
    case Dispatching(body, rest) => if body.id == id then multiset(rest)[user] else 0
    case Looking(u, r, from) => Mine(u, user, CopyOf(r, id)) + FromCopies(from, id, user)
    case Sending(u, r, _, from) => Mine(u, user, CopyOf(r, id)) + FromCopies(from, id, user)
    case Counting(_, from) => FromCopies(from, id, user)
    case Refused(u, r, from) => Mine(u, user, CopyOf(r, id)) + FromCopies(from, id, user)
    case Listing(u, r, from) => Mine(u, user, CopyOf(r, id)) + FromCopies(from, id, user)
    case Pushing(u, r, from) => Mine(u, user, CopyOf(r, id)) + FromCopies(from, id, user)
    case Leaving(u, _, hand, _, _) => Mine(u, user, Copies(hand, id))
    case Entering(u, _, hand, _) => Mine(u, user, Copies(hand, id))
    case _ => 0
  }

  function ConnSum(conns: seq<Conn>, id: int64, user: int64): nat {
    if conns == [] then 0 else ConnSum(conns[..|conns| - 1], id, user) + ConnCopies(conns[|conns| - 1], id, user)
  }

  function OpSum(ops: seq<Op>, id: int64, user: int64): nat {
    if ops == [] then 0 else OpSum(ops[..|ops| - 1], id, user) + OpCopies(ops[|ops| - 1], id, user)
  }

  /** The copies of `id` for `user` that some channel, writer, operation or wait list holds. */
  function InFlight(g: Gateway, id: int64, user: int64): nat {
    ConnSum(g.conns, id, user) + OpSum(g.ops, id, user) + Copies(Get(g.waiting, user), id)
  }

  lemma CopiesFirst(q: seq<Request>, id: int64)
    requires q != []
    ensures Copies(q, id) == CopyOf(q[0], id) + Copies(q[1..], id)
  {
  }

  lemma {:induction false} CopiesAppended(q: seq<Request>, r: Request, id: int64)
    ensures Copies(q + [r], id) == Copies(q, id) + CopyOf(r, id)
  {
    if q == [] {
      assert ([] + [r])[1..] == [];
    } else {
      CopiesAppended(q[1..], r, id);
      assert (q + [r])[1..] == q[1..] + [r];
    }
  }

  lemma {:induction false} ConnSumUpdate(conns: seq<Conn>, h: nat, c: Conn, id: int64, user: int64)
    requires h < |conns|
    ensures ConnSum(conns[h := c], id, user) + ConnCopies(conns[h], id, user) == ConnSum(conns, id, user) + ConnCopies(c, id, user)
  {
    hide ConnCopies;
    var last := |conns| - 1;
    if h == last {
      assert conns[h := c][..last] == conns[..last];
    } else {
      assert conns[h := c][..last] == conns[..last][h := c];
      ConnSumUpdate(conns[..last], h, c, id, user);
    }
  }

  lemma ConnSumAppend(conns: seq<Conn>, c: Conn, id: int64, user: int64)
    ensures ConnSum(conns + [c], id, user) == ConnSum(conns, id, user) + ConnCopies(c, id, user)
  {
    hide ConnCopies;
    assert (conns + [c])[..|conns|] == conns;
  }

  lemma {:induction false} OpSumUpdate(ops: seq<Op>, i: nat, op: Op, id: int64, user: int64)
    requires i < |ops|
    ensures OpSum(ops[i := op], id, user) + OpCopies(ops[i], id, user) == OpSum(ops, id, user) + OpCopies(op, id, user)
  {
    hide OpCopies;
    var last := |ops| - 1;
    if i == last {
      assert ops[i := op][..last] == ops[..last];
    } else {
      assert ops[i := op][..last] == ops[..last][i := op];
      OpSumUpdate(ops[..last], i, op, id, user);
    }
  }

  lemma OpSumAppend(ops: seq<Op>, op: Op, id: int64, user: int64)
    ensures OpSum(ops + [op], id, user) == OpSum(ops, id, user) + OpCopies(op, id, user)
  {
    hide OpCopies;
    assert (ops + [op])[..|ops|] == ops;
  }

  // ---------- How single changes move copies ----------

  /** `g'` holds `less` copies fewer than `g`. */
  ghost predicate Loses(g: Gateway, g': Gateway, id: int64, user: int64, less: nat) {
    InFlight(g', id, user) + less == InFlight(g, id, user)
  }

  lemma BecomeLoses(g: Gateway, g1: Gateway, i: nat, op: Op, id: int64, user: int64, less: nat)
    requires i < |g.ops| && g1.ops == g.ops
    requires ConnSum(g1.conns, id, user) + Copies(Get(g1.waiting, user), id) + OpCopies(op, id, user) + less
             == ConnSum(g.conns, id, user) + Copies(Get(g.waiting, user), id) + OpCopies(g.ops[i], id, user)
    ensures Loses(g, Become(g1, i, op), id, user, less)
  {
    hide ConnSum, OpSum, OpCopies, Copies;
    OpSumUpdate(g.ops, i, op, id, user);
  }

  lemma BackCopies(from: From, id: int64, user: int64)
    ensures OpCopies(Back(from), id, user) == FromCopies(from, id, user)
  {
  }

  lemma SetConnSum(g: Gateway, h: nat, c: Conn, id: int64, user: int64)
    requires h < |g.conns| && c.user == g.conns[h].user && c.queue == g.conns[h].queue && c.writer == g.conns[h].writer
    ensures ConnSum(g.conns[h := c], id, user) == ConnSum(g.conns, id, user)
  {
    hide ConnSum;
    ConnSumUpdate(g.conns, h, c, id, user);
  }

  lemma StartedLoses(g: Gateway, op: Op, id: int64, user: int64)
    requires OpCopies(op, id, user) == 0
    ensures Loses(g, Start(g, op), id, user, 0)
  {
    hide ConnSum, OpSum, Copies;
    OpSumAppend(g.ops, op, id, user);
  }

  lemma DispatchLoses(g: Gateway, i: nat, body: ClientMessage, rest: seq<int64>, id: int64, user: int64)
    requires i < |g.ops| && g.ops[i] == Dispatching(body, rest)
    ensures var op := if rest == [] then Done else Looking(rest[0], Push(body), FromDispatch(body, rest[1..]));
            Loses(g, Become(g, i, op), id, user, 0)
  {
    hide ConnSum, OpSum, Copies, Loses;
    var op := if rest == [] then Done else Looking(rest[0], Push(body), FromDispatch(body, rest[1..]));
    if rest != [] {
      assert rest == [rest[0]] + rest[1..];
    }
    BecomeLoses(g, g, i, op, id, user, 0);
  }

  lemma LookLoses(g: Gateway, i: nat, user: int64, r: Request, from: From, id: int64, u: int64)
    requires i < |g.ops| && g.ops[i] == Looking(user, r, from) && (from.FromPing? ==> r.Ping?)
    ensures Loses(g, Look(g, i, user, r, from), id, u, 0)
  {
    hide ConnSum, OpSum, Copies, Loses, Become, FromCopies;
    var op := if user in g.store then Sending(user, r, g.store[user], from)
              else match from
                case FromDispatch(_, _) => Refused(user, r, from)
                case FromRetry => Pushing(user, r, from)
                case FromPing => Done;
    PingHasNone(from, id, u);
    BecomeLoses(g, g, i, op, id, u, 0);
  }

  lemma PingHasNone(from: From, id: int64, user: int64)
    ensures !from.FromDispatch? ==> FromCopies(from, id, user) == 0
  {
  }

  lemma SendLoses(g: Gateway, i: nat, user: int64, r: Request, h: nat, from: From, choice: Choice, id: int64, u: int64)
    requires i < |g.ops| && g.ops[i] == Sending(user, r, h, from) && (from.FromPing? ==> r.Ping?)
    requires h < |g.conns| && g.conns[h].user == user
    ensures Loses(g, Send(g, i, user, r, h, from, choice), id, u, 0)
  {
    hide ConnSum, OpSum, Copies, Loses, Become, FromCopies;
    var c := g.conns[h];
    PingHasNone(from, id, u);
    if !c.sendOpen {
      SameLoses(g, g.(crashed := true), id, u);
    } else if |c.queue| < c.capacity {
      var c' := c.(queue := c.queue + [r]);
      ConnSumUpdate(g.conns, h, c', id, u);
      CopiesAppended(c.queue, r, id);
      BecomeLoses(g, g.(conns := g.conns[h := c']), i, Counting(user, from), id, u, 0);
    } else if choice.Works? {
      SameLoses(g, g, id, u);
    } else {
      BecomeLoses(g, g, i, match from
                           case FromDispatch(_, _) => Listing(user, r, from)
                           case FromRetry => Pushing(user, r, from)
                           case FromPing => Done, id, u, 0);
    }
  }

  lemma CountLoses(g: Gateway, i: nat, user: int64, from: From, id: int64, u: int64)
    requires i < |g.ops| && g.ops[i] == Counting(user, from)
    ensures Loses(g, Become(g.(totalPending := g.totalPending + 1), i, if from.FromRetry? then Measuring(user) else Back(from)), id, u, 0)
  {
    hide ConnSum, OpSum, Copies, Loses, Become, FromCopies;
    BackCopies(from, id, u);
    PingHasNone(from, id, u);
    EmptyHandedLoses(g, g.(totalPending := g.totalPending + 1), i, if from.FromRetry? then Measuring(user) else Back(from), id, u);
  }

  lemma SameLoses(g: Gateway, g': Gateway, id: int64, user: int64)
    requires g'.conns == g.conns && g'.ops == g.ops && g'.waiting == g.waiting
    ensures Loses(g, g', id, user, 0)
  {
  }

  lemma RefusedLoses(g: Gateway, i: nat, user: int64, r: Request, from: From, id: int64, u: int64)
    requires i < |g.ops| && (g.ops[i] == Refused(user, r, from) || g.ops[i] == Pushing(user, r, from))
    ensures Loses(g, Become(g, i, Back(from)), id, u, Mine(user, u, CopyOf(r, id)))
  {
    hide ConnSum, OpSum, Copies, Loses, Become, FromCopies;
    BackCopies(from, id, u);
    BecomeLoses(g, g, i, Back(from), id, u, Mine(user, u, CopyOf(r, id)));
  }

  lemma ListLoses(g: Gateway, i: nat, user: int64, r: Request, from: From, id: int64, u: int64)
    requires i < |g.ops| && g.ops[i] == Listing(user, r, from)
    ensures Loses(g, Become(g.(waitSet := g.waitSet + {user}), i, Pushing(user, r, from)), id, u, 0)
  {
    hide ConnSum, OpSum, Copies, Loses, Become, FromCopies;
    BecomeLoses(g, g.(waitSet := g.waitSet + {user}), i, Pushing(user, r, from), id, u, 0);
  }

  lemma PushedLoses(g: Gateway, i: nat, user: int64, r: Request, from: From, id: int64, u: int64)
    requires i < |g.ops| && g.ops[i] == Pushing(user, r, from)
    ensures Loses(g, Become(g.(waiting := g.waiting[user := Get(g.waiting, user) + [r]]), i, Back(from)), id, u, 0)
  {
    hide ConnSum, OpSum, Copies, Loses, Become, FromCopies;
    BackCopies(from, id, u);
    CopiesAppended(Get(g.waiting, user), r, id);
    BecomeLoses(g, g.(waiting := g.waiting[user := Get(g.waiting, user) + [r]]), i, Back(from), id, u, 0);
  }

  /** A list entry is popped into the operation's hands, or lost when it does not decode. */
  lemma PoppedLoses(g: Gateway, i: nat, user: int64, op: Op, id: int64, u: int64, less: nat)
    requires i < |g.ops| && g.ops[i] == Popping(user) && Get(g.waiting, user) != []
    requires OpCopies(op, id, u) + less == Mine(user, u, CopyOf(Get(g.waiting, user)[0], id))
    ensures Loses(g, Become(g.(waiting := g.waiting[user := Get(g.waiting, user)[1..]]), i, op), id, u, less)
  {
    hide ConnSum, OpSum, Copies, Loses, Become;
    CopiesFirst(Get(g.waiting, user), id);
    assert OpCopies(g.ops[i], id, u) == 0;
    hide OpCopies;
    BecomeLoses(g, g.(waiting := g.waiting[user := Get(g.waiting, user)[1..]]), i, op, id, u, less);
  }

  /** Between operations without copies nothing moves. */
  lemma EmptyHandedLoses(g: Gateway, g1: Gateway, i: nat, op: Op, id: int64, u: int64)
    requires i < |g.ops| && g1.ops == g.ops && g1.conns == g.conns && g1.waiting == g.waiting
    requires OpCopies(op, id, u) == OpCopies(g.ops[i], id, u)
    ensures Loses(g, Become(g1, i, op), id, u, 0)
  {
    hide ConnSum, OpSum, Copies, Loses, Become, OpCopies;
    BecomeLoses(g, g1, i, op, id, u, 0);
  }

  lemma ArriveLoses(g: Gateway, i: nat, user: int64, why: Why, id: int64, u: int64)
    requires i < |g.ops| && g.ops[i] == Arriving(user, why) && (user in g.store ==> g.store[user] < |g.conns|)
    ensures Loses(g, Arrive(g, i, user, why), id, u, 0)
  {
    hide ConnSum, OpSum, Loses, Become;
    if user in g.store {
      var h := g.store[user];
      var c := g.conns[h].(leavers := g.conns[h].leavers + 1);
      SetConnSum(g, h, c, id, u);
      BecomeLoses(g, g.(conns := g.conns[h := c]), i, Leaving(user, h, [], why, Closing), id, u, 0);
    } else {
      EmptyHandedLoses(g, g, i, match why case Removal => Done case Replacement(buffer) => Entering(user, buffer, [], None), id, u);
    }
  }

  lemma CloseLoses(g: Gateway, i: nat, user: int64, h: nat, why: Why, id: int64, u: int64)
    requires i < |g.ops| && g.ops[i] == Leaving(user, h, [], why, Closing) && h < |g.conns|
    ensures Loses(g, Close(g, i, user, h, why), id, u, 0)
  {
    hide ConnSum, OpSum, Copies, Loses, Become;
    var c := g.conns[h].(closeOpen := false);
    SetConnSum(g, h, c, id, u);
    BecomeLoses(g, g.(conns := g.conns[h := c]), i, Leaving(user, h, [], why, Draining), id, u, 0);
    EmptyHandedLoses(g, g, i, Leaving(user, h, [], why, if why.Removal? then HandingBack else Draining), id, u);
  }

  lemma DrainLoses(g: Gateway, i: nat, user: int64, h: nat, hand: seq<Request>, why: Why, id: int64, u: int64)
    requires i < |g.ops| && g.ops[i] == Leaving(user, h, hand, why, Draining) && h < |g.conns| && g.conns[h].user == user
    ensures Loses(g, DrainOne(g, i, user, h, hand, why), id, u, 0)
  {
    hide ConnSum, OpSum, Copies, Loses, Become;
    var c := g.conns[h];
    if c.queue == [] {
      EmptyHandedLoses(g, g, i, Leaving(user, h, hand, why, Sealing), id, u);
    } else {
      var c' := c.(queue := c.queue[1..]);
      ConnSumUpdate(g.conns, h, c', id, u);
      CopiesFirst(c.queue, id);
      CopiesAppended(hand, c.queue[0], id);
      BecomeLoses(g, g.(conns := g.conns[h := c']), i, Leaving(user, h, hand + [c.queue[0]], why, Draining), id, u, 0);
    }
  }

  lemma SealLoses(g: Gateway, i: nat, user: int64, h: nat, hand: seq<Request>, why: Why, id: int64, u: int64)
    requires i < |g.ops| && g.ops[i] == Leaving(user, h, hand, why, Sealing) && h < |g.conns|
    ensures Loses(g, Seal(g, i, user, h, hand, why), id, u, 0)
  {
    hide ConnSum, OpSum, Copies, Loses, Become;
    var c := g.conns[h].(sendOpen := false);
    SetConnSum(g, h, c, id, u);
    BecomeLoses(g, g.(conns := g.conns[h := c]), i, Leaving(user, h, hand, why, if why.Removal? then Uncounting else Discounting), id, u, 0);
  }

  lemma UncountLoses(g: Gateway, i: nat, user: int64, h: nat, hand: seq<Request>, why: Why, id: int64, u: int64)
    requires i < |g.ops| && g.ops[i] == Leaving(user, h, hand, why, Uncounting)
    ensures Loses(g, Become(g.(totalPending := g.totalPending - |hand|), i, Leaving(user, h, hand, why, HandingBack)), id, u, 0)
  {
    hide ConnSum, OpSum, Copies, Loses, Become;
    EmptyHandedLoses(g, g.(totalPending := g.totalPending - |hand|), i, Leaving(user, h, hand, why, HandingBack), id, u);
  }

  lemma HandBackLoses(g: Gateway, i: nat, user: int64, h: nat, hand: seq<Request>, why: Why, id: int64, u: int64)
    requires i < |g.ops| && g.ops[i] == Leaving(user, h, hand, why, HandingBack)
    ensures hand == [] ==> Loses(g, Become(g, i, Leaving(user, h, [], why, Forgetting)), id, u, 0)
    ensures hand != [] ==>
              Loses(g, Become(g, i, Leaving(user, h, hand[1..], why, HandingBack)), id, u, Mine(user, u, CopyOf(hand[0], id)))
  {
    hide ConnSum, OpSum, Copies, Loses, Become;
    if hand == [] {
      EmptyHandedLoses(g, g, i, Leaving(user, h, [], why, Forgetting), id, u);
    } else {
      CopiesFirst(hand, id);
      BecomeLoses(g, g, i, Leaving(user, h, hand[1..], why, HandingBack), id, u, Mine(user, u, CopyOf(hand[0], id)));
    }
  }

  /** A removal forgets its holder only when it has handed everything back. */
  lemma ForgetLoses(g: Gateway, i: nat, user: int64, h: nat, hand: seq<Request>, why: Why, id: int64, u: int64)
    requires i < |g.ops| && g.ops[i] == Leaving(user, h, hand, why, Forgetting) && (why.Removal? ==> hand == [])
    ensures Loses(g, Forget(g, i, user, h, hand, why), id, u, 0)
  {
    hide ConnSum, OpSum, Loses, Become;
    EmptyHandedLoses(g, g.(store := g.store - {user}), i,
                     match why
                     case Removal => Leaving(user, h, hand, why, Discounting)
                     case Replacement(buffer) => Entering(user, buffer, hand, Some(h)), id, u);
  }

  lemma DiscountLoses(g: Gateway, i: nat, user: int64, h: nat, hand: seq<Request>, why: Why, id: int64, u: int64)
    requires i < |g.ops| && g.ops[i] == Leaving(user, h, hand, why, Discounting) && (why.Removal? ==> hand == [])
    ensures Loses(g, Discount(g, i, user, h, hand, why), id, u, 0)
  {
    hide ConnSum, OpSum, Loses, Become;
    EmptyHandedLoses(g, g.(connCount := g.connCount - 1), i, if why.Removal? then Done else Leaving(user, h, hand, why, Forgetting), id, u);
  }

  lemma EnterLoses(g: Gateway, i: nat, user: int64, buffer: nat, hand: seq<Request>, prior: Option<nat>, id: int64, u: int64)
    requires i < |g.ops| && g.ops[i] == Entering(user, buffer, hand, prior) && (prior.Some? ==> prior.value < |g.conns|)
    ensures Loses(g, Enter(g, i, user, buffer, hand, prior), id, u, 0)
  {
    hide ConnSum, OpSum, Copies, Loses, Become;
    var history := if prior.Some? then g.conns[prior.value].received else [];
    var c := Conn(user, hand, buffer + |hand|, true, true, Selecting, history, 0);
    ConnSumAppend(g.conns, c, id, u);
    BecomeLoses(g, g.(conns := g.conns + [c], store := g.store[user := |g.conns|]), i, Admitting(user), id, u, 0);
  }

  lemma ReceiveLoses(g: Gateway, h: nat, id: int64, u: int64)
    requires CanReceive(g, h)
    ensures Loses(g, ReceiveOne(g, h), id, u, 0)
  {
    hide ConnSum, OpSum, Copies;
    var c := g.conns[h];
    ConnSumUpdate(g.conns, h, ReceiveOne(g, h).conns[h], id, u);
    CopiesFirst(c.queue, id);
  }

  lemma UncountOneLoses(g: Gateway, h: nat, id: int64, u: int64)
    requires CanUncount(g, h)
    ensures Loses(g, UncountOne(g, h), id, u, 0)
  {
    hide ConnSum, OpSum, Copies;
    ConnSumUpdate(g.conns, h, UncountOne(g, h).conns[h], id, u);
  }

  lemma QuitLoses(g: Gateway, h: nat, id: int64, u: int64)
    requires CanQuit(g, h)
    ensures Loses(g, g.(conns := g.conns[h := g.conns[h].(writer := Exited)]), id, u, 0)
  {
    hide ConnSum, OpSum, Copies;
    ConnSumUpdate(g.conns, h, g.conns[h].(writer := Exited), id, u);
  }

  lemma WrittenLoses(g: Gateway, h: nat, ok: bool, id: int64, u: int64)
    requires CanWrite(g, h)
    ensures var c := g.conns[h];
            Loses(g, g.(conns := g.conns[h := c.(writer := if ok then Selecting else Exited)]), id, u,
                  Mine(c.user, u, CopyOf(c.writer.r, id)))
  {
    hide ConnSum, OpSum, Copies;
    ConnSumUpdate(g.conns, h, g.conns[h].(writer := if ok then Selecting else Exited), id, u);
  }

  // ---------- The accounts of messages ----------

  /** Every copy of a live message is in exactly one place, and its counter is the number of
      copies neither written nor handed back. */
  ghost predicate Live(g: Gateway, id: int64) {
    var r := g.records;
    && id in r.targets && id in r.delivered && id in r.astray && id in r.table.cells
    && |r.delivered[id]| <= |r.targets[id]| < TWO_31
    && r.table.cells[id] == P.Cell(|r.targets[id]| - |r.delivered[id]|, 0)
    && (r.targets[id] != [] ==> |r.delivered[id]| < |r.targets[id]|)
    && (forall u: int64 ::
          multiset(r.targets[id])[u] == InFlight(g, id, u) + multiset(r.delivered[id])[u] + multiset(r.astray[id])[u])
  }

  ghost predicate Gone(g: Gateway, id: int64) {
    forall u: int64 :: InFlight(g, id, u) == 0
  }

  ghost predicate AccountedAt(g: Gateway, id: int64) {
    if id in g.records.table.cells then Live(g, id) else Gone(g, id)
  }

  /** Pings carry no message and are not retried. */
  predicate OpFits(op: Op) {
    && (op.Looking? || op.Sending? ==> op.from.FromPing? ==> op.r.Ping?)
    && (op.Refused? || op.Listing? || op.Pushing? ==> !op.from.FromPing?)
  }

  ghost predicate Fits(ops: seq<Op>) {
    forall i | 0 <= i < |ops| :: OpFits(ops[i])
  }

  ghost predicate Accounted(g: Gateway) {
    forall id: int64 :: AccountedAt(g, id)
  }

  ghost predicate Inv(g: Gateway) {
    Refs(g) && Fits(g.ops) && Accounted(g)
  }

  /** All copies of the message were written to a socket or accepted back. */
  ghost predicate AllDelivered(r: Records, id: int64) {
    id in r.delivered && id in r.targets && multiset(r.delivered[id]) == multiset(r.targets[id])
  }

  /** New callbacks report completion, and of messages whose copies are all delivered. */
  ghost predicate Announces(r: Records, r': Records) {
    && |r.table.fired| <= |r'.table.fired| && r'.table.fired[..|r.table.fired|] == r.table.fired
    && (forall j | |r.table.fired| <= j < |r'.table.fired| ::
          r'.table.fired[j].Completed? && AllDelivered(r', r'.table.fired[j].id))
  }

  lemma AnnouncesNothing(r: Records, r': Records)
    requires r'.table.fired == r.table.fired
    ensures Announces(r, r')
  {
  }

  /** Any change that keeps the copies of every message. */
  lemma Moved(g: Gateway, g': Gateway)
    requires Accounted(g) && g'.records == g.records
    requires forall id: int64, u: int64 :: Loses(g, g', id, u, 0)
    ensures Accounted(g') && Announces(g.records, g'.records)
  {
    hide InFlight;
    AnnouncesNothing(g.records, g'.records);
    forall id: int64 ensures AccountedAt(g', id) {
      assert AccountedAt(g, id);
      assert forall u: int64 :: Loses(g, g', id, u, 0) && InFlight(g', id, u) == InFlight(g, id, u);
    }
  }

  /** What a change of one message's records leaves alone. */
  ghost predicate OnlyAbout(r: Records, r': Records, id: int64) {
    && r'.targets == r.targets
    && (forall jd: int64 | jd != id ::
          && (jd in r'.table.cells <==> jd in r.table.cells)
          && (jd in r.table.cells ==> r'.table.cells[jd] == r.table.cells[jd])
          && (jd in r'.delivered <==> jd in r.delivered) && (jd in r.delivered ==> r'.delivered[jd] == r.delivered[jd])
          && (jd in r'.astray <==> jd in r.astray) && (jd in r.astray ==> r'.astray[jd] == r.astray[jd]))
  }

  lemma OthersAccounted(g: Gateway, g': Gateway, id: int64, jd: int64)
    requires AccountedAt(g, jd) && jd != id && OnlyAbout(g.records, g'.records, id)
    requires forall u: int64 :: InFlight(g', jd, u) == InFlight(g, jd, u)
    ensures AccountedAt(g', jd)
  {
    hide InFlight;
  }

  /** A copy that can be lost was in flight, so its message is live. */
  lemma HeldIsLive(g: Gateway, g1: Gateway, id: int64, user: int64)
    requires AccountedAt(g, id) && Loses(g, g1, id, user, 1)
    ensures Live(g, id) && g.records.table.cells[id].pending >= 1
    ensures |g.records.delivered[id]| < |g.records.targets[id]|
  {
    hide InFlight;
    assert !Gone(g, id);
    assert multiset(g.records.targets[id])[user] >= 1;
  }

  /** One report on a counter that has seen no failure. */
  lemma ReportOne(t: P.Table, id: int64)
    requires id in t.cells && t.cells[id].pending >= 1 && t.cells[id].failed == 0
    ensures t.Report(id, false, 1) ==
            if t.cells[id].pending > 1 then t.(cells := t.cells[id := P.Cell(t.cells[id].pending - 1, 0)])
            else P.Table(t.cells - {id}, t.fired + [P.Completed(id)])
  {
  }

  function One(id: int64, user: int64, jd: int64, u: int64): nat {
    if jd == id && u == user then 1 else 0
  }

  /** The copy `id` for `user`, and no other, has left `g` for `g1`. */
  ghost predicate Takes(g: Gateway, g1: Gateway, id: int64, user: int64) {
    && g1.records == g.records
    && (forall jd: int64, u: int64 :: Loses(g, g1, jd, u, One(id, user, jd, u)))
  }

  lemma TakesOne(g: Gateway, g1: Gateway, id: int64, user: int64)
    requires Takes(g, g1, id, user) && AccountedAt(g, id)
    ensures Live(g, id) && g.records.table.cells[id].pending >= 1
    ensures |g.records.delivered[id]| < |g.records.targets[id]|
  {
    hide AccountedAt;
    assert Loses(g, g1, id, user, One(id, user, id, user));
    HeldIsLive(g, g1, id, user);
  }

  lemma TakesNoOther(g: Gateway, g1: Gateway, g': Gateway, id: int64, user: int64, jd: int64)
    requires Accounted(g) && Takes(g, g1, id, user) && jd != id && OnlyAbout(g.records, g'.records, id)
    requires g'.conns == g1.conns && g'.ops == g1.ops && g'.waiting == g1.waiting
    ensures AccountedAt(g', jd)
  {
    hide InFlight, OnlyAbout, AccountedAt;
    SameFlight(g1, g');
    forall u: int64 ensures InFlight(g', jd, u) == InFlight(g, jd, u) {
      assert Loses(g, g1, jd, u, One(id, user, jd, u));
    }
    assert AccountedAt(g, jd);
    OthersAccounted(g, g', id, jd);
  }

  lemma StrayAccounted(g: Gateway, g1: Gateway, id: int64, user: int64)
    requires Accounted(g) && Takes(g, g1, id, user)
    ensures Accounted(g1.(records := Stray(g1.records, id, user)))
  {
    hide InFlight, AccountedAt, Takes;
    var g' := g1.(records := Stray(g1.records, id, user));
    assert AccountedAt(g, id);
    TakesOne(g, g1, id, user);
    TakesRecords(g, g1, id, user);
    StrayOwn(g, g1, id, user);
    StrayOnlyAbout(g.records, id, user);
    forall jd: int64 ensures AccountedAt(g', jd) {
      if jd != id { TakesNoOther(g, g1, g', id, user, jd); }
    }
  }

  lemma TakesRecords(g: Gateway, g1: Gateway, id: int64, user: int64)
    requires Takes(g, g1, id, user)
    ensures g1.records == g.records
    ensures forall u: int64 :: Loses(g, g1, id, u, One(id, user, id, u))
  {
  }

  lemma StrayOnlyAbout(r: Records, id: int64, user: int64)
    ensures OnlyAbout(r, Stray(r, id, user), id)
  {
  }

  lemma DeliverOnlyAbout(r: Records, id: int64, user: int64)
    ensures OnlyAbout(r, Deliver(r, id, user), id)
  {
    hide Wrap32;
  }

  lemma SameFlight(g: Gateway, g': Gateway)
    requires g'.conns == g.conns && g'.ops == g.ops && g'.waiting == g.waiting
    ensures forall id: int64, u: int64 :: InFlight(g', id, u) == InFlight(g, id, u)
  {
  }

  lemma StrayOwn(g: Gateway, g1: Gateway, id: int64, user: int64)
    requires Live(g, id) && g1.records == g.records
    requires forall u: int64 :: Loses(g, g1, id, u, One(id, user, id, u))
    ensures AccountedAt(g1.(records := Stray(g1.records, id, user)), id)
  {
    hide InFlight;
    var g' := g1.(records := Stray(g1.records, id, user));
    SameFlight(g1, g');
    forall u: int64
      ensures multiset(g'.records.targets[id])[u]
              == InFlight(g', id, u) + multiset(g'.records.delivered[id])[u] + multiset(g'.records.astray[id])[u]
    {
      assert Loses(g, g1, id, u, One(id, user, id, u));
      assert multiset(g.records.astray[id] + [user]) == multiset(g.records.astray[id]) + multiset{user};
    }
  }

  lemma DeliverAccounted(g: Gateway, g1: Gateway, id: int64, user: int64)
    requires Accounted(g) && Takes(g, g1, id, user)
    ensures Accounted(g1.(records := Deliver(g1.records, id, user)))
    ensures Announces(g.records, Deliver(g1.records, id, user))
  {
    hide InFlight, AccountedAt, Takes, Deliver;
    var g' := g1.(records := Deliver(g1.records, id, user));
    assert AccountedAt(g, id);
    TakesOne(g, g1, id, user);
    TakesRecords(g, g1, id, user);
    DeliverOwn(g, g1, id, user);
    DeliverOnlyAbout(g.records, id, user);
    DeliverAnnounces(g.records, id, user);
    forall jd: int64 ensures AccountedAt(g', jd) {
      if jd != id { TakesNoOther(g, g1, g', id, user, jd); }
    }
  }

  lemma DeliverAnnounces(r: Records, id: int64, user: int64)
    requires id in r.table.cells && r.table.cells[id].pending >= 1 && r.table.cells[id].failed == 0
    requires id !in Deliver(r, id, user).table.cells ==> AllDelivered(Deliver(r, id, user), id)
    ensures Announces(r, Deliver(r, id, user))
  {
    hide P.Table.Report, AllDelivered;
    ReportOne(r.table, id);
  }

  /** The counter reaches zero exactly when the multiset of delivered copies is complete. */
  lemma DeliverOwn(g: Gateway, g1: Gateway, id: int64, user: int64)
    requires Live(g, id) && |g.records.delivered[id]| < |g.records.targets[id]| && g1.records == g.records
    requires forall u: int64 :: Loses(g, g1, id, u, One(id, user, id, u))
    ensures var r' := Deliver(g1.records, id, user);
            AccountedAt(g1.(records := r'), id) && (id !in r'.table.cells ==> AllDelivered(r', id))
  {
    hide InFlight, P.Table.Report, AllDelivered;
    var g' := g1.(records := Deliver(g1.records, id, user));
    var d, t, a := multiset(g'.records.delivered[id]), multiset(g.records.targets[id]), multiset(g.records.astray[id]);
    ReportOne(g.records.table, id);
    SameFlight(g1, g');
    forall u: int64 ensures t[u] == InFlight(g', id, u) + d[u] + a[u] {
      assert Loses(g, g1, id, u, One(id, user, id, u));
      assert d == multiset(g.records.delivered[id]) + multiset{user};
    }
    if id !in g'.records.table.cells {
      CompleteMeansGone(g', id, d, t, a);
    }
  }

  lemma CompleteMeansGone(g: Gateway, id: int64, d: multiset<int64>, t: multiset<int64>, a: multiset<int64>)
    requires |d| == |t| && forall u: int64 :: t[u] == InFlight(g, id, u) + d[u] + a[u]
    requires id in g.records.delivered && id in g.records.targets
    requires d == multiset(g.records.delivered[id]) && t == multiset(g.records.targets[id])
    ensures Gone(g, id) && AllDelivered(g.records, id)
  {
    hide InFlight;
    assert d <= t;
    assert t == d + (t - d);
  }

  /** A request leaves the gateway, one way or the other. */
  lemma FinishAccounted(g: Gateway, g1: Gateway, user: int64, r: Request, ok: bool)
    requires Accounted(g) && g1.records == g.records
    requires forall id: int64, u: int64 :: Loses(g, g1, id, u, Mine(user, u, CopyOf(r, id)))
    ensures Accounted(Finish(g1, user, r, ok)) && Announces(g.records, Finish(g1, user, r, ok).records)
  {
    hide InFlight, Loses, Deliver, Stray;
    forall id: int64, u: int64 ensures Loses(g, g1, id, u, Mine(user, u, CopyOf(r, id))) { }
    if r.Ping? {
      forall id: int64, u: int64 ensures Loses(g, g1, id, u, 0) {
        assert Loses(g, g1, id, u, Mine(user, u, CopyOf(r, id)));
      }
      Moved(g, g1);
    } else {
      forall id: int64, u: int64 ensures Loses(g, g1, id, u, One(r.msg.id, user, id, u)) {
        assert Loses(g, g1, id, u, Mine(user, u, CopyOf(r, id)));
      }
      assert Takes(g, g1, r.msg.id, user);
      if ok {
        DeliverAccounted(g, g1, r.msg.id, user);
      } else {
        StrayAccounted(g, g1, r.msg.id, user);
        StrayAnnounces(g1.records, r.msg.id, user);
      }
    }
  }

  lemma StrayAnnounces(r: Records, id: int64, user: int64)
    ensures Announces(r, Stray(r, id, user))
  {
  }

  // ---------- Starting a dispatch ----------

  lemma OpenAccounted(g: Gateway, msg: PushMessage, marshals: bool)
    requires Accounted(g) && Fresh(g, DoOpen(msg, marshals))
    ensures Accounted(Open(g, msg, marshals)) && Announces(g.records, Open(g, msg, marshals).records)
  {
    hide InFlight, Opened, AccountedAt;
    var id, g' := msg.body.id, Open(g, msg, marshals);
    OpenedRecords(g.records, msg, marshals);
    AnnouncesNothing(g.records, g'.records);
    assert AccountedAt(g, id);
    OpenOwn(g, msg, marshals);
    forall jd: int64 ensures AccountedAt(g', jd) {
      assert AccountedAt(g, jd);
      if jd != id { OpenOthers(g, msg, marshals, jd); }
    }
  }

  lemma OpenOwn(g: Gateway, msg: PushMessage, marshals: bool)
    requires AccountedAt(g, msg.body.id) && Fresh(g, DoOpen(msg, marshals))
    ensures AccountedAt(Open(g, msg, marshals), msg.body.id)
  {
    hide InFlight, Opened;
    OpenedRecords(g.records, msg, marshals);
    forall u: int64
      ensures InFlight(Open(g, msg, marshals), msg.body.id, u) == if marshals then multiset(msg.targets)[u] else 0
    {
      OpenFlight(g, msg, marshals, msg.body.id, u);
    }
  }

  lemma OpenOthers(g: Gateway, msg: PushMessage, marshals: bool, jd: int64)
    requires AccountedAt(g, jd) && jd != msg.body.id && |msg.targets| < TWO_31
    ensures AccountedAt(Open(g, msg, marshals), jd)
  {
    hide InFlight, Opened;
    OpenedRecords(g.records, msg, marshals);
    forall u: int64 ensures InFlight(Open(g, msg, marshals), jd, u) == InFlight(g, jd, u) {
      OpenFlight(g, msg, marshals, jd, u);
    }
  }

  lemma OpenFlight(g: Gateway, msg: PushMessage, marshals: bool, jd: int64, u: int64)
    ensures InFlight(Open(g, msg, marshals), jd, u)
            == InFlight(g, jd, u) + if marshals && jd == msg.body.id then multiset(msg.targets)[u] else 0
  {
    hide ConnSum, OpSum, Copies, Opened;
    OpSumAppend(g.ops, Dispatching(msg.body, msg.targets), jd, u);
  }

  lemma OpenedRecords(r: Records, msg: PushMessage, marshals: bool)
    requires |msg.targets| < TWO_31
    ensures var r', id := Opened(r, msg, marshals), msg.body.id;
            && r'.table.fired == r.table.fired
            && r'.table.cells == r.table.cells[id := P.Cell(|msg.targets|, 0)]
            && r'.targets == r.targets[id := msg.targets] && r'.delivered == r.delivered[id := []]
            && r'.astray == r.astray[id := if marshals then [] else msg.targets]
  {
  }

  // ---------- Every action ----------

  lemma BecomeFits(g: Gateway, g1: Gateway, i: nat, op: Op)
    requires i < |g.ops| && Fits(g.ops) && g1.ops == g.ops && OpFits(op)
    ensures Fits(Become(g1, i, op).ops)
  {
    hide OpFits;
  }

  lemma StartFits(g: Gateway, op: Op)
    requires Fits(g.ops) && OpFits(op)
    ensures Fits(Start(g, op).ops)
  {
    hide OpFits;
  }

  lemma SendFits(g: Gateway, i: nat, user: int64, r: Request, h: nat, from: From, choice: Choice)
    requires i < |g.ops| && h < |g.conns| && Fits(g.ops) && OpFits(Sending(user, r, h, from))
    ensures Fits(Send(g, i, user, r, h, from, choice).ops)
  {
    hide Fits, Become;
    BecomeFits(g, g.(conns := g.conns[h := g.conns[h].(queue := g.conns[h].queue + [r])]), i, Counting(user, from));
    BecomeFits(g, g, i, match from
                        case FromDispatch(_, _) => Listing(user, r, from)
                        case FromRetry => Pushing(user, r, from)
                        case FromPing => Done);
  }

  lemma SendKeepsInv(g: Gateway, i: nat, user: int64, r: Request, h: nat, from: From, choice: Choice)
    requires i < |g.ops| && Inv(g) && g.ops[i] == Sending(user, r, h, from)
    ensures h < |g.conns|
    ensures var g' := Send(g, i, user, r, h, from, choice); Fits(g'.ops) && Accounted(g') && Announces(g.records, g'.records)
  {
    hide InFlight, Accounted, Announces, Loses, Become, Fits;
    assert OpRefers(g.ops[i], g.conns) && OpFits(g.ops[i]) by { OpIsFine(g, i); }
    SendFits(g, i, user, r, h, from, choice);
    forall id: int64, u: int64 ensures Loses(g, Send(g, i, user, r, h, from, choice), id, u, 0) {
      SendLoses(g, i, user, r, h, from, choice, id, u);
    }
    Moved(g, Send(g, i, user, r, h, from, choice));
  }

  lemma OpIsFine(g: Gateway, i: nat)
    requires Inv(g) && i < |g.ops|
    ensures OpRefers(g.ops[i], g.conns) && OpFits(g.ops[i])
  {
  }

  /** What an action has to keep, apart from the references. */
  ghost predicate Keeps(g: Gateway, g': Gateway) {
    Fits(g'.ops) && Accounted(g') && Announces(g.records, g'.records)
  }

  lemma MovedKeeps(g: Gateway, g': Gateway)
    requires Accounted(g) && g'.records == g.records && Fits(g'.ops)
    requires forall id: int64, u: int64 :: Loses(g, g', id, u, 0)
    ensures Keeps(g, g')
  {
    hide Accounted, Announces, Loses, Fits;
    Moved(g, g');
  }

  lemma FinishKeeps(g: Gateway, g1: Gateway, user: int64, r: Request, ok: bool)
    requires Accounted(g) && g1.records == g.records && Fits(g1.ops)
    requires forall id: int64, u: int64 :: Loses(g, g1, id, u, Mine(user, u, CopyOf(r, id)))
    ensures Keeps(g, Finish(g1, user, r, ok))
  {
    hide Accounted, Announces, Loses, Fits, Fate;
    FinishAccounted(g, g1, user, r, ok);
  }

  lemma LookKeeps(g: Gateway, i: nat, user: int64, r: Request, from: From)
    requires i < |g.ops| && Inv(g) && g.ops[i] == Looking(user, r, from)
    ensures Keeps(g, Look(g, i, user, r, from))
  {
    hide Accounted, Keeps, Loses, Fits, Become;
    OpIsFine(g, i);
    BecomeFits(g, g, i, if user in g.store then Sending(user, r, g.store[user], from)
                        else match from
                          case FromDispatch(_, _) => Refused(user, r, from)
                          case FromRetry => Pushing(user, r, from)
                          case FromPing => Done);
    forall id: int64, u: int64 ensures Loses(g, Look(g, i, user, r, from), id, u, 0) {
      LookLoses(g, i, user, r, from, id, u);
    }
    MovedKeeps(g, Look(g, i, user, r, from));
  }

  lemma BackFits(from: From)
    ensures OpFits(Back(from)) && OpFits(Done)
  {
  }

  lemma RefusedKeeps(g: Gateway, i: nat, user: int64, r: Request, from: From, ok: bool)
    requires i < |g.ops| && Inv(g) && (g.ops[i] == Refused(user, r, from) || g.ops[i] == Pushing(user, r, from))
    ensures Keeps(g, Finish(Become(g, i, Back(from)), user, r, ok))
  {
    hide Accounted, Keeps, Loses, Fits, OpFits, Finish;
    BackFits(from);
    BecomeFits(g, g, i, Back(from));
    forall id: int64, u: int64 ensures Loses(g, Become(g, i, Back(from)), id, u, Mine(user, u, CopyOf(r, id))) {
      RefusedLoses(g, i, user, r, from, id, u);
    }
    FinishKeeps(g, Become(g, i, Back(from)), user, r, ok);
  }

  lemma ListKeeps(g: Gateway, i: nat, user: int64, r: Request, from: From)
    requires i < |g.ops| && Inv(g) && g.ops[i] == Listing(user, r, from)
    ensures Keeps(g, Become(g.(waitSet := g.waitSet + {user}), i, Pushing(user, r, from)))
  {
    hide Accounted, Keeps, Loses, Fits;
    var g1 := g.(waitSet := g.waitSet + {user});
    OpIsFine(g, i);
    BecomeFits(g, g1, i, Pushing(user, r, from));
    forall id: int64, u: int64 ensures Loses(g, Become(g1, i, Pushing(user, r, from)), id, u, 0) {
      ListLoses(g, i, user, r, from, id, u);
    }
    MovedKeeps(g, Become(g1, i, Pushing(user, r, from)));
  }

  lemma PushKeeps(g: Gateway, i: nat, user: int64, r: Request, from: From, choice: Choice)
    requires i < |g.ops| && Inv(g) && g.ops[i] == Pushing(user, r, from)
    ensures Keeps(g, PushWaiting(g, i, user, r, from, choice))
  {
    hide Accounted, Keeps, Loses, Fits, OpFits, Finish;
    var g1 := g.(waiting := g.waiting[user := Get(g.waiting, user) + [r]]);
    RefusedKeeps(g, i, user, r, from, false);
    BackFits(from);
    BecomeFits(g, g1, i, Back(from));
    forall id: int64, u: int64 ensures Loses(g, Become(g1, i, Back(from)), id, u, 0) {
      PushedLoses(g, i, user, r, from, id, u);
    }
    MovedKeeps(g, Become(g1, i, Back(from)));
  }

  lemma PopKeeps(g: Gateway, i: nat, user: int64, choice: Choice)
    requires i < |g.ops| && Inv(g) && g.ops[i] == Popping(user)
    ensures Keeps(g, Pop(g, i, user, choice))
  {
    hide Accounted, Keeps, Loses, Fits, Finish, Become;
    var list := Get(g.waiting, user);
    BackFits(FromRetry);
    BecomeFits(g, g, i, Done);
    if choice.Fails? || list == [] {
      forall id: int64, u: int64 ensures Loses(g, Become(g, i, Done), id, u, 0) { EmptyHandedLoses(g, g, i, Done, id, u); }
      MovedKeeps(g, Become(g, i, Done));
    } else {
      var g1 := g.(waiting := g.waiting[user := list[1..]]);
      BecomeFits(g, g1, i, Done);
      BecomeFits(g, g1, i, Looking(user, list[0], FromRetry));
      if choice.Garbled? {
        forall id: int64, u: int64 ensures Loses(g, Become(g1, i, Done), id, u, Mine(user, u, CopyOf(list[0], id))) {
          PoppedLoses(g, i, user, Done, id, u, Mine(user, u, CopyOf(list[0], id)));
        }
        FinishKeeps(g, Become(g1, i, Done), user, list[0], false);
      } else {
        forall id: int64, u: int64 ensures Loses(g, Become(g1, i, Looking(user, list[0], FromRetry)), id, u, 0) {
          PingHasNone(FromRetry, id, u);
          PoppedLoses(g, i, user, Looking(user, list[0], FromRetry), id, u, 0);
        }
        MovedKeeps(g, Become(g1, i, Looking(user, list[0], FromRetry)));
      }
    }
  }

  /** Operations that hold no copy before or after. */
  lemma EmptyHandedKeeps(g: Gateway, g1: Gateway, i: nat, op: Op)
    requires i < |g.ops| && Inv(g) && OpFits(op)
    requires g1.ops == g.ops && g1.conns == g.conns && g1.waiting == g.waiting && g1.records == g.records
    requires forall id: int64, u: int64 :: OpCopies(op, id, u) == OpCopies(g.ops[i], id, u)
    ensures Keeps(g, Become(g1, i, op))
  {
    hide Accounted, Keeps, Loses, Fits, OpFits, OpCopies;
    BecomeFits(g, g1, i, op);
    forall id: int64, u: int64 ensures Loses(g, Become(g1, i, op), id, u, 0) { EmptyHandedLoses(g, g1, i, op, id, u); }
    MovedKeeps(g, Become(g1, i, op));
  }

  lemma DispatchKeeps(g: Gateway, i: nat, body: ClientMessage, rest: seq<int64>)
    requires i < |g.ops| && Inv(g) && g.ops[i] == Dispatching(body, rest)
    ensures Keeps(g, Become(g, i, if rest == [] then Done else Looking(rest[0], Push(body), FromDispatch(body, rest[1..]))))
  {
    hide Accounted, Keeps, Loses, Fits, Become;
    var op := if rest == [] then Done else Looking(rest[0], Push(body), FromDispatch(body, rest[1..]));
    BecomeFits(g, g, i, op);
    forall id: int64, u: int64 ensures Loses(g, Become(g, i, op), id, u, 0) { DispatchLoses(g, i, body, rest, id, u); }
    MovedKeeps(g, Become(g, i, op));
  }

  lemma ArriveKeeps(g: Gateway, i: nat, user: int64, why: Why)
    requires i < |g.ops| && Inv(g) && g.ops[i] == Arriving(user, why) && (user in g.store ==> g.store[user] < |g.conns|)
    ensures Keeps(g, Arrive(g, i, user, why))
  {
    hide Accounted, Keeps, Loses, Fits;
    if user in g.store {
      var h := g.store[user];
      BecomeFits(g, g.(conns := g.conns[h := g.conns[h].(leavers := g.conns[h].leavers + 1)]), i, Leaving(user, h, [], why, Closing));
    } else {
      BecomeFits(g, g, i, match why case Removal => Done case Replacement(buffer) => Entering(user, buffer, [], None));
    }
    forall id: int64, u: int64 ensures Loses(g, Arrive(g, i, user, why), id, u, 0) { ArriveLoses(g, i, user, why, id, u); }
    MovedKeeps(g, Arrive(g, i, user, why));
  }

  lemma CloseKeeps(g: Gateway, i: nat, user: int64, h: nat, why: Why)
    requires i < |g.ops| && Inv(g) && h < |g.conns| && g.ops[i] == Leaving(user, h, [], why, Closing)
    ensures Keeps(g, Close(g, i, user, h, why))
  {
    hide Accounted, Keeps, Loses, Fits;
    BecomeFits(g, g.(conns := g.conns[h := g.conns[h].(closeOpen := false)]), i, Leaving(user, h, [], why, Draining));
    BecomeFits(g, g, i, Leaving(user, h, [], why, if why.Removal? then HandingBack else Draining));
    forall id: int64, u: int64 ensures Loses(g, Close(g, i, user, h, why), id, u, 0) { CloseLoses(g, i, user, h, why, id, u); }
    MovedKeeps(g, Close(g, i, user, h, why));
  }

  lemma DrainKeeps(g: Gateway, i: nat, user: int64, h: nat, hand: seq<Request>, why: Why)
    requires i < |g.ops| && Inv(g) && h < |g.conns| && g.conns[h].user == user
    requires g.ops[i] == Leaving(user, h, hand, why, Draining)
    ensures Keeps(g, DrainOne(g, i, user, h, hand, why))
  {
    hide Accounted, Keeps, Loses, Fits;
    var c := g.conns[h];
    if c.queue == [] {
      BecomeFits(g, g, i, Leaving(user, h, hand, why, Sealing));
    } else {
      BecomeFits(g, g.(conns := g.conns[h := c.(queue := c.queue[1..])]), i, Leaving(user, h, hand + [c.queue[0]], why, Draining));
    }
    forall id: int64, u: int64 ensures Loses(g, DrainOne(g, i, user, h, hand, why), id, u, 0) {
      DrainLoses(g, i, user, h, hand, why, id, u);
    }
    MovedKeeps(g, DrainOne(g, i, user, h, hand, why));
  }

  lemma SealKeeps(g: Gateway, i: nat, user: int64, h: nat, hand: seq<Request>, why: Why)
    requires i < |g.ops| && Inv(g) && h < |g.conns| && g.ops[i] == Leaving(user, h, hand, why, Sealing)
    ensures Keeps(g, Seal(g, i, user, h, hand, why))
  {
    hide Accounted, Keeps, Loses, Fits;
    BecomeFits(g, g.(conns := g.conns[h := g.conns[h].(sendOpen := false)]), i,
               Leaving(user, h, hand, why, if why.Removal? then Uncounting else Discounting));
    forall id: int64, u: int64 ensures Loses(g, Seal(g, i, user, h, hand, why), id, u, 0) {
      SealLoses(g, i, user, h, hand, why, id, u);
    }
    MovedKeeps(g, Seal(g, i, user, h, hand, why));
  }

  lemma UncountKeeps(g: Gateway, i: nat, user: int64, h: nat, hand: seq<Request>, why: Why)
    requires i < |g.ops| && Inv(g) && g.ops[i] == Leaving(user, h, hand, why, Uncounting)
    ensures Keeps(g, Become(g.(totalPending := g.totalPending - |hand|), i, Leaving(user, h, hand, why, HandingBack)))
  {
    hide Accounted, Keeps, Loses, Fits;
    var g' := Become(g.(totalPending := g.totalPending - |hand|), i, Leaving(user, h, hand, why, HandingBack));
    BecomeFits(g, g.(totalPending := g.totalPending - |hand|), i, Leaving(user, h, hand, why, HandingBack));
    forall id: int64, u: int64 ensures Loses(g, g', id, u, 0) { UncountLoses(g, i, user, h, hand, why, id, u); }
    MovedKeeps(g, g');
  }

  lemma HandBackKeeps(g: Gateway, i: nat, user: int64, h: nat, hand: seq<Request>, why: Why, choice: Choice)
    requires i < |g.ops| && Inv(g) && g.ops[i] == Leaving(user, h, hand, why, HandingBack)
    ensures Keeps(g, HandBackOne(g, i, user, h, hand, why, choice))
  {
    hide Accounted, Keeps, Loses, Fits, Finish;
    if hand == [] {
      BecomeFits(g, g, i, Leaving(user, h, [], why, Forgetting));
      forall id: int64, u: int64 ensures Loses(g, Become(g, i, Leaving(user, h, [], why, Forgetting)), id, u, 0) {
        HandBackLoses(g, i, user, h, hand, why, id, u);
      }
      MovedKeeps(g, Become(g, i, Leaving(user, h, [], why, Forgetting)));
    } else {
      var next := Leaving(user, h, hand[1..], why, HandingBack);
      BecomeFits(g, g, i, next);
      forall id: int64, u: int64 ensures Loses(g, Become(g, i, next), id, u, Mine(user, u, CopyOf(hand[0], id))) {
        HandBackLoses(g, i, user, h, hand, why, id, u);
      }
      FinishKeeps(g, Become(g, i, next), user, hand[0], choice.Works?);
    }
  }

  lemma ForgetKeeps(g: Gateway, i: nat, user: int64, h: nat, hand: seq<Request>, why: Why)
    requires i < |g.ops| && Inv(g) && g.ops[i] == Leaving(user, h, hand, why, Forgetting)
    ensures Keeps(g, Forget(g, i, user, h, hand, why))
  {
    hide Accounted, Keeps, Loses, Fits;
    OpIsFine(g, i);
    BecomeFits(g, g.(store := g.store - {user}), i,
               match why
               case Removal => Leaving(user, h, hand, why, Discounting)
               case Replacement(buffer) => Entering(user, buffer, hand, Some(h)));
    forall id: int64, u: int64 ensures Loses(g, Forget(g, i, user, h, hand, why), id, u, 0) {
      ForgetLoses(g, i, user, h, hand, why, id, u);
    }
    MovedKeeps(g, Forget(g, i, user, h, hand, why));
  }

  lemma DiscountKeeps(g: Gateway, i: nat, user: int64, h: nat, hand: seq<Request>, why: Why)
    requires i < |g.ops| && Inv(g) && g.ops[i] == Leaving(user, h, hand, why, Discounting)
    ensures Keeps(g, Discount(g, i, user, h, hand, why))
  {
    hide Accounted, Keeps, Loses, Fits;
    OpIsFine(g, i);
    BecomeFits(g, g.(connCount := g.connCount - 1), i, if why.Removal? then Done else Leaving(user, h, hand, why, Forgetting));
    forall id: int64, u: int64 ensures Loses(g, Discount(g, i, user, h, hand, why), id, u, 0) {
      DiscountLoses(g, i, user, h, hand, why, id, u);
    }
    MovedKeeps(g, Discount(g, i, user, h, hand, why));
  }

  lemma EnterKeeps(g: Gateway, i: nat, user: int64, buffer: nat, hand: seq<Request>, prior: Option<nat>)
    requires i < |g.ops| && Inv(g) && g.ops[i] == Entering(user, buffer, hand, prior) && (prior.Some? ==> prior.value < |g.conns|)
    ensures Keeps(g, Enter(g, i, user, buffer, hand, prior))
  {
    hide Accounted, Keeps, Loses, Fits;
    BecomeFits(g, Enter(g, i, user, buffer, hand, prior).(ops := g.ops), i, Admitting(user));
    forall id: int64, u: int64 ensures Loses(g, Enter(g, i, user, buffer, hand, prior), id, u, 0) {
      EnterLoses(g, i, user, buffer, hand, prior, id, u);
    }
    MovedKeeps(g, Enter(g, i, user, buffer, hand, prior));
  }

  lemma LeaveKeeps(g: Gateway, i: nat, user: int64, h: nat, hand: seq<Request>, why: Why, stage: Stage, choice: Choice)
    requires i < |g.ops| && Inv(g) && h < |g.conns| && g.conns[h].user == user
    requires g.ops[i] == Leaving(user, h, hand, why, stage)
    ensures Keeps(g, Leave(g, i, user, h, hand, why, stage, choice))
  {
    hide Inv, Keeps, Close, DrainOne, Seal, HandBackOne, Forget, Discount, Become;
    OpIsFine(g, i);
    match stage
    case Closing => CloseKeeps(g, i, user, h, why);
    case Draining => DrainKeeps(g, i, user, h, hand, why);
    case Sealing => SealKeeps(g, i, user, h, hand, why);
    case Uncounting => UncountKeeps(g, i, user, h, hand, why);
    case HandingBack => HandBackKeeps(g, i, user, h, hand, why, choice);
    case Forgetting => ForgetKeeps(g, i, user, h, hand, why);
    case Discounting => DiscountKeeps(g, i, user, h, hand, why);
  }

  lemma AdvanceKeeps(g: Gateway, i: nat, choice: Choice)
    requires Refs(g) && Inv(g) && i < |g.ops|
    ensures Keeps(g, AdvanceOp(g, i, choice))
  {
    hide Inv, Refs, Keeps, Look, Send, PushWaiting, Pop, Arrive, Leave, Enter, Finish, Become, OpFits;
    OpIsFine(g, i);
    match g.ops[i]
    case Dispatching(body, rest) => DispatchKeeps(g, i, body, rest);
    case Looking(user, r, from) => LookKeeps(g, i, user, r, from);
    case Sending(user, r, h, from) => SendKeeps(g, i, user, r, h, from, choice);
    case Counting(user, from) => CountKeeps(g, i, user, from);
    case Refused(user, r, from) => RefusedKeeps(g, i, user, r, from, choice.Works?);
    case Listing(user, r, from) => ListKeeps(g, i, user, r, from);
    case Pushing(user, r, from) => PushKeeps(g, i, user, r, from, choice);
    case Popping(user) => PopKeeps(g, i, user, choice);
    case Measuring(user) => MeasureKeeps(g, i, user, choice);
    case Unlisting(user) => UnlistKeeps(g, i, user);
    case Arriving(user, why) => StoreRefers(g, user); ArriveKeeps(g, i, user, why);
    case Leaving(user, h, hand, why, stage) => LeaveKeeps(g, i, user, h, hand, why, stage, choice);
    case Entering(user, buffer, hand, prior) => EnterKeeps(g, i, user, buffer, hand, prior);
    case Admitting(user) => AdmitKeeps(g, i, user);
    case Done => NothingKeeps(g);
  }

  lemma CountKeeps(g: Gateway, i: nat, user: int64, from: From)
    requires i < |g.ops| && Inv(g) && g.ops[i] == Counting(user, from)
    ensures Keeps(g, Become(g.(totalPending := g.totalPending + 1), i, if from.FromRetry? then Measuring(user) else Back(from)))
  {
    hide Accounted, Keeps, Loses, Fits;
    var op := if from.FromRetry? then Measuring(user) else Back(from);
    var g' := Become(g.(totalPending := g.totalPending + 1), i, op);
    BecomeFits(g, g.(totalPending := g.totalPending + 1), i, op);
    forall id: int64, u: int64 ensures Loses(g, g', id, u, 0) { CountLoses(g, i, user, from, id, u); }
    MovedKeeps(g, g');
  }

  lemma AdmitKeeps(g: Gateway, i: nat, user: int64)
    requires i < |g.ops| && Inv(g) && g.ops[i] == Admitting(user)
    ensures Keeps(g, Become(g.(connCount := g.connCount + 1), i, Done))
  {
    hide Keeps, Inv;
    EmptyHandedKeeps(g, g.(connCount := g.connCount + 1), i, Done);
  }

  lemma MeasureKeeps(g: Gateway, i: nat, user: int64, choice: Choice)
    requires i < |g.ops| && Inv(g) && g.ops[i] == Measuring(user)
    ensures Keeps(g, Become(g, i, if choice.Works? && Get(g.waiting, user) == [] then Unlisting(user) else Done))
  {
    hide Keeps, Inv;
    EmptyHandedKeeps(g, g, i, if choice.Works? && Get(g.waiting, user) == [] then Unlisting(user) else Done);
  }

  lemma UnlistKeeps(g: Gateway, i: nat, user: int64)
    requires i < |g.ops| && Inv(g) && g.ops[i] == Unlisting(user)
    ensures Keeps(g, Become(g.(waitSet := g.waitSet - {user}), i, Done))
  {
    hide Keeps, Inv;
    EmptyHandedKeeps(g, g.(waitSet := g.waitSet - {user}), i, Done);
  }

  lemma SendKeeps(g: Gateway, i: nat, user: int64, r: Request, h: nat, from: From, choice: Choice)
    requires i < |g.ops| && Inv(g) && h < |g.conns| && g.ops[i] == Sending(user, r, h, from)
    ensures Keeps(g, Send(g, i, user, r, h, from, choice))
  {
    hide Inv, Send, Fits, Accounted, Announces;
    SendKeepsInv(g, i, user, r, h, from, choice);
  }

  lemma NothingKeeps(g: Gateway)
    requires Inv(g)
    ensures Keeps(g, g)
  {
    hide Accounted, Fits;
    AnnouncesNothing(g.records, g.records);
  }

  lemma StartKeeps(g: Gateway, op: Op)
    requires Inv(g) && OpFits(op) && forall id: int64, u: int64 :: OpCopies(op, id, u) == 0
    ensures Keeps(g, Start(g, op))
  {
    hide Accounted, Keeps, Loses, Fits, OpFits, OpCopies;
    StartFits(g, op);
    forall id: int64, u: int64 ensures Loses(g, Start(g, op), id, u, 0) { StartedLoses(g, op, id, u); }
    MovedKeeps(g, Start(g, op));
  }

  lemma OpenKeeps(g: Gateway, msg: PushMessage, marshals: bool)
    requires Inv(g) && Fresh(g, DoOpen(msg, marshals))
    ensures Keeps(g, Open(g, msg, marshals))
  {
    hide Accounted, Fits, Announces, Opened;
    OpenAccounted(g, msg, marshals);
    StartFits(g, Dispatching(msg.body, msg.targets));
  }

  lemma WritersKeep(g: Gateway, a: Action)
    requires Inv(g) && (a.Receive? || a.Uncount? || a.Quit? || a.Write?)
    ensures Keeps(g, Step(g, a))
  {
    hide Accounted, Keeps, Loses, Fits, Fate, CanReceive, CanUncount, CanQuit, CanWrite;
    NothingKeeps(g);
    if !g.crashed {
      match a
      case Receive(h) =>
        if CanReceive(g, h) {
          forall id: int64, u: int64 ensures Loses(g, ReceiveOne(g, h), id, u, 0) { ReceiveLoses(g, h, id, u); }
          MovedKeeps(g, ReceiveOne(g, h));
        }
      case Uncount(h) =>
        if CanUncount(g, h) {
          forall id: int64, u: int64 ensures Loses(g, UncountOne(g, h), id, u, 0) { UncountOneLoses(g, h, id, u); }
          MovedKeeps(g, UncountOne(g, h));
        }
      case Quit(h) =>
        if CanQuit(g, h) {
          QuitKeeps(g, h);
        }
      case Write(h, ok) =>
        if CanWrite(g, h) {
          WriteKeeps(g, h, ok);
        }
    }
  }

  lemma QuitKeeps(g: Gateway, h: nat)
    requires Inv(g) && CanQuit(g, h)
    ensures Keeps(g, g.(conns := g.conns[h := g.conns[h].(writer := Exited)]))
  {
    hide Accounted, Keeps, Loses, Fits;
    var g' := g.(conns := g.conns[h := g.conns[h].(writer := Exited)]);
    forall id: int64, u: int64 ensures Loses(g, g', id, u, 0) { QuitLoses(g, h, id, u); }
    MovedKeeps(g, g');
  }

  lemma WriteKeeps(g: Gateway, h: nat, ok: bool)
    requires Inv(g) && CanWrite(g, h)
    ensures Keeps(g, WriteOne(g, h, ok))
  {
    hide Accounted, Keeps, Loses, Fits, Fate;
    var c := g.conns[h];
    var g1 := g.(conns := g.conns[h := c.(writer := if ok then Selecting else Exited)]);
    forall id: int64, u: int64 ensures Loses(g, g1, id, u, Mine(c.user, u, CopyOf(c.writer.r, id))) {
      WrittenLoses(g, h, ok, id, u);
    }
    FinishKeeps(g, g1, c.user, c.writer.r, ok);
  }

  lemma StepKeepsInv(g: Gateway, a: Action)
    requires Refs(g) && Inv(g) && Fresh(g, a)
    ensures Inv(Step(g, a)) && Announces(g.records, Step(g, a).records)
  {
    hide Accounted, Announces, Fits, Refs, AdvanceOp, Open, OpFits, ReceiveOne, WriteOne;
    StepKeepsRefs(g, a);
    NothingKeeps(g);
    if !g.crashed {
      match a
      case DoOpen(msg, marshals) => OpenKeeps(g, msg, marshals);
      case DoRetry(user) => StartingFits(user, Removal); StartKeeps(g, Popping(user));
      case DoPing(user) => PingStarts(g, user);
      case DoRemove(user) => StartingFits(user, Removal); StartKeeps(g, Arriving(user, Removal));
      case DoConnect(user, buffer) => StartingFits(user, Replacement(buffer)); StartKeeps(g, Arriving(user, Replacement(buffer)));
      case Advance(i, choice) => if i < |g.ops| { AdvanceKeeps(g, i, choice); }
      case Receive(_) => WritersKeep(g, a);
      case Uncount(_) => WritersKeep(g, a);
      case Quit(_) => WritersKeep(g, a);
      case Write(_, _) => WritersKeep(g, a);
    }
  }

  lemma StartingFits(user: int64, why: Why)
    ensures OpFits(Popping(user)) && OpFits(Arriving(user, why))
  {
  }

  lemma PingStarts(g: Gateway, user: int64)
    requires Inv(g)
    ensures Keeps(g, Start(g, Looking(user, Ping, FromPing)))
  {
    hide Keeps, Inv;
    forall id: int64, u: int64 ensures OpCopies(Looking(user, Ping, FromPing), id, u) == 0 { }
    StartKeeps(g, Looking(user, Ping, FromPing));
  }

  // ---------- Main results ----------

  lemma {:induction false} RunKeepsInv(actions: seq<Action>)
    requires FreshRun(actions)
    ensures Inv(Run(actions))
  {
    hide Inv, Step, Fresh;
    if actions == [] {
      IdleInv();
    } else {
      RunKeepsInv(actions[..|actions| - 1]);
      StepKeepsInv(Run(actions[..|actions| - 1]), actions[|actions| - 1]);
    }
  }

  lemma IdleInv()
    ensures Inv(IDLE)
  {
  }

  /** Conservation: in every run, whatever operations overlap and wherever each of them is, a
      live message's counter is the number of copies neither written nor handed back, and each
      of those copies is in exactly one channel, writer, operation or wait list, or went
      astray. Retries never multiply a copy, and a message with targets stays live only as
      long as some copy is outstanding. */
  lemma {:induction false} CopiesAreConserved(actions: seq<Action>, id: int64)
    requires FreshRun(actions) && id in Run(actions).records.table.cells
    ensures var g := Run(actions);
            var r := g.records;
            && id in r.targets && id in r.delivered && id in r.astray
            && multiset(r.delivered[id]) <= multiset(r.targets[id])
            && r.table.cells[id].pending == |multiset(r.targets[id]) - multiset(r.delivered[id])|
            && (r.targets[id] != [] ==> r.table.cells[id].pending > 0)
            && (forall u: int64 ::
                  (multiset(r.targets[id]) - multiset(r.delivered[id]))[u] == InFlight(g, id, u) + multiset(r.astray[id])[u])
  {
    hide Run, InFlight;
    var g := Run(actions);
    RunKeepsInv(actions);
    assert AccountedAt(g, id);
    Outstanding(g, id);
  }

  lemma Outstanding(g: Gateway, id: int64)
    requires Live(g, id)
    ensures var t, d := multiset(g.records.targets[id]), multiset(g.records.delivered[id]);
            && d <= t && |t - d| == |g.records.targets[id]| - |g.records.delivered[id]|
            && (forall u: int64 :: (t - d)[u] == InFlight(g, id, u) + multiset(g.records.astray[id])[u])
  {
    hide InFlight;
    var t, d := multiset(g.records.targets[id]), multiset(g.records.delivered[id]);
    assert forall u: int64 :: d[u] <= t[u];
    assert t == d + (t - d);
  }

  /** Safety of the callback: in every run, an action that fires callbacks fires completions
      only, and only for messages every one of whose copies has been written to a socket or
      accepted back by the send service. */
  lemma {:induction false} CompletionMeansDelivered(actions: seq<Action>, a: Action)
    requires FreshRun(actions + [a])
    ensures Announces(Run(actions).records, Run(actions + [a]).records)
  {
    hide Run, FreshRun, Step, Announces;
    RunOnce(actions, a);
    RunKeepsInv(actions);
    StepKeepsInv(Run(actions), a);
  }
}
