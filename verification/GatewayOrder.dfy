/** The order in which a connection's requests travel, across reconnects, over every run of
    GatewaySpec's actions. */
module GatewayOrder {
  import opened GoInt
  import opened GatewayChannels
  import opened GatewaySpec
  import opened GatewayExclusive
  import opened GatewayOverlap

  // ---------- Following a connection ----------

  /** Where the requests of a connection are: with a holder, or on the way to the next one. */
  datatype Carrier = With(h: nat) | Moving(op: nat)

  /** A reconnect that has loaded its user's old holder. */
  predicate Mover(op: Op) {
    || (op.Leaving? && op.why.Replacement? && !op.stage.Uncounting? && !op.stage.HandingBack?)
    || (op.Entering? && op.prior.Some?)
  }

  function Source(op: Op): nat
    requires Mover(op)
  {
    if op.Leaving? then op.h else op.prior.value
  }

  predicate Carries(g: Gateway, c: Carrier) {
    match c
    case With(h) => h < |g.conns|
    case Moving(i) => i < |g.ops| && Mover(g.ops[i]) && Source(g.ops[i]) < |g.conns|
  }

  function HolderOf(g: Gateway, c: Carrier): (h: nat)
    requires Carries(g, c)
    ensures h < |g.conns|
  {
    if c.With? then c.h else Source(g.ops[c.op])
  }

  function HandOf(g: Gateway, c: Carrier): seq<Request>
    requires Carries(g, c)
  {
    if c.With? then [] else g.ops[c.op].hand
  }

  /** All requests of a connection in the order in which they were or will be received: those
      its writers have received, those a reconnect has drained, those in the channel. */
  function Line(g: Gateway, c: Carrier): seq<Request>
    requires Carries(g, c)
  {
    g.conns[HolderOf(g, c)].received + HandOf(g, c) + g.conns[HolderOf(g, c)].queue
  }

  predicate Loads(g: Gateway, a: Action, h: nat) {
    && a.Advance? && a.op < |g.ops| && g.ops[a.op].Arriving? && g.ops[a.op].why.Replacement?
    && g.ops[a.op].user in g.store && g.store[g.ops[a.op].user] == h
  }

  /** A connection passes to a reconnect that loads its holder, and on to the new holder. */
  function Follow(g: Gateway, a: Action, c: Carrier): Carrier
    requires Carries(g, c)
  {
    if g.crashed then c
    else match c
      case With(h) => if Loads(g, a, h) then Moving(a.op) else c
      case Moving(i) => if a.Advance? && a.op == i && g.ops[i].Entering? then With(|g.conns|) else c
  }

  /** The old writer receives while drained requests wait that differ from its own; somebody
      else drains the channel; or the new holder is stored while requests sent after the last
      drain are still in the old channel. */
  predicate OutOfTurn(g: Gateway, a: Action, c: Carrier)
    requires Carries(g, c)
  {
    var h, hand := HolderOf(g, c), HandOf(g, c);
    var queue := g.conns[h].queue;
    && !g.crashed
    && ((a == Receive(h) && CanReceive(g, h) && [queue[0]] + hand != hand + [queue[0]])
        || (a.Advance? && a.op < |g.ops| && queue != []
            && ((g.ops[a.op].Leaving? && g.ops[a.op].h == h && g.ops[a.op].stage.Draining? && c != Moving(a.op))
                || (c == Moving(a.op) && g.ops[a.op].Entering?))))
  }

  /** The connection's line has grown at its tail, if at all. */
  ghost predicate Grows(g: Gateway, g': Gateway, c: Carrier, c': Carrier)
    requires Carries(g, c)
  {
    Carries(g', c') && Line(g, c) <= Line(g', c')
  }

  lemma SentBehind<T>(received: seq<T>, hand: seq<T>, queue: seq<T>, r: T)
    ensures received + hand + queue <= received + hand + (queue + [r])
  {
    assert received + hand + (queue + [r]) == received + hand + queue + [r];
  }

  lemma TakenAway<T>(received: seq<T>, hand: seq<T>, queue: seq<T>)
    requires queue != []
    ensures !(received + hand + queue <= received + hand + queue[1..])
  {
  }

  lemma ReceivedFirst<T>(received: seq<T>, hand: seq<T>, queue: seq<T>)
    requires queue != []
    ensures received + hand + queue <= (received + [queue[0]]) + hand + queue[1..]
            <==> [queue[0]] + hand == hand + [queue[0]]
  {
    var before, after := received + hand + queue, (received + [queue[0]]) + hand + queue[1..];
    var n := |received|;
    assert queue == [queue[0]] + queue[1..];
    assert before == received + (hand + [queue[0]]) + queue[1..];
    assert after == received + ([queue[0]] + hand) + queue[1..];
    assert before[n..][..|hand| + 1] == hand + [queue[0]];
    assert after[n..][..|hand| + 1] == [queue[0]] + hand;
    if before <= after { assert before == after; }
  }

  lemma DrainedInOrder<T>(received: seq<T>, hand: seq<T>, queue: seq<T>)
    requires queue != []
    ensures received + hand + queue == received + (hand + [queue[0]]) + queue[1..]
  {
    assert queue == [queue[0]] + queue[1..];
  }

  /** What becomes of a reconnect's operation when it advances. */
  lemma MoverGoesOn(g: Gateway, i: nat, choice: Choice)
    requires Refs(g) && i < |g.ops| && g.ops[i].Leaving? && Mover(g.ops[i])
    ensures var g', op := AdvanceOp(g, i, choice), g.ops[i];
            && op.h < |g.conns| && |g'.ops| == |g.ops| && Mover(g'.ops[i]) && Source(g'.ops[i]) == op.h
            && var queue := g.conns[op.h].queue;
               g'.ops[i].hand == if op.stage.Draining? && queue != [] then op.hand + [queue[0]] else op.hand
  {
    hide Refs, OpRefers;
    assert OpRefers(g.ops[i], g.conns) by { OpIsReferred(g, i); }
    OpReferences(g.ops[i], g.conns);
    if g.ops[i].stage.Closing? { NothingInHand(g.ops[i], g.conns); }
    HandMoves(g, i, g.ops[i].user, g.ops[i].h, g.ops[i].hand, g.ops[i].why.buffer, g.ops[i].stage, choice);
  }

  lemma NothingInHand(op: Op, conns: seq<Conn>)
    requires OpRefers(op, conns) && op.Leaving? && op.stage.Closing?
    ensures op.hand == []
  {
  }

  lemma HandMoves(g: Gateway, i: nat, user: int64, h: nat, hand: seq<Request>, buffer: nat, stage: Stage, choice: Choice)
    requires i < |g.ops| && h < |g.conns| && !stage.Uncounting? && !stage.HandingBack? && (stage.Closing? ==> hand == [])
    ensures var g' := Leave(g, i, user, h, hand, Replacement(buffer), stage, choice);
            && |g'.ops| == |g.ops| && Mover(g'.ops[i]) && Source(g'.ops[i]) == h
            && var queue := g.conns[h].queue;
               g'.ops[i].hand == if stage.Draining? && queue != [] then hand + [queue[0]] else hand
  {
  }

  lemma ArrivalLoads(g: Gateway, i: nat, choice: Choice, h: nat)
    requires Refs(g) && i < |g.ops| && Loads(g, Advance(i, choice), h)
    ensures var g' := AdvanceOp(g, i, choice);
            && |g'.ops| == |g.ops| && Mover(g'.ops[i]) && Source(g'.ops[i]) == h && g'.ops[i].hand == []
  {
    hide Refs, OpRefers;
    StoreRefers(g, g.ops[i].user);
  }

  /** A connection that no operation is moving, or one that another operation works at. */
  lemma OthersAdvance(g: Gateway, i: nat, choice: Choice, c: Carrier)
    requires Refs(g) && !g.crashed && i < |g.ops| && Carries(g, c) && c != Moving(i)
    ensures Grows(g, AdvanceOp(g, i, choice), c, Follow(g, Advance(i, choice), c)) <==> !OutOfTurn(g, Advance(i, choice), c)
    ensures Carries(AdvanceOp(g, i, choice), Follow(g, Advance(i, choice), c))
  {
    hide Refs, AdvanceOp, CanReceive;
    var h, g' := HolderOf(g, c), AdvanceOp(g, i, choice);
    var c' := Follow(g, Advance(i, choice), c);
    AdvanceTracks(g, i, choice, h);
    OthersStay(g, i, choice);
    if c.With? && Loads(g, Advance(i, choice), c.h) { ArrivalLoads(g, i, choice, c.h); }
    assert Carries(g', c') && HolderOf(g', c') == h && HandOf(g', c') == HandOf(g, c);
    var queue := g.conns[h].queue;
    if g.ops[i].Sending? {
      SentBehind(g.conns[h].received, HandOf(g, c), queue, g.ops[i].r);
    } else if queue != [] {
      TakenAway(g.conns[h].received, HandOf(g, c), queue);
    }
  }

  /** The reconnect's own actions. */
  lemma MoverAdvances(g: Gateway, i: nat, choice: Choice)
    requires Refs(g) && !g.crashed && Carries(g, Moving(i))
    ensures Grows(g, AdvanceOp(g, i, choice), Moving(i), Follow(g, Advance(i, choice), Moving(i)))
            <==> !OutOfTurn(g, Advance(i, choice), Moving(i))
    ensures Carries(AdvanceOp(g, i, choice), Follow(g, Advance(i, choice), Moving(i)))
  {
    hide Refs, AdvanceOp, CanReceive;
    var op := g.ops[i];
    if op.Leaving? {
      AdvanceTracks(g, i, choice, op.h);
      MoverGoesOn(g, i, choice);
      if g.conns[op.h].queue != [] { DrainedInOrder(g.conns[op.h].received, op.hand, g.conns[op.h].queue); }
    } else {
      Handover(g, i, choice);
    }
  }

  lemma Handover(g: Gateway, i: nat, choice: Choice)
    requires Refs(g) && i < |g.ops| && g.ops[i].Entering? && g.ops[i].prior.Some?
    ensures var g', h := AdvanceOp(g, i, choice), g.ops[i].prior.value;
            && h < |g.conns| && |g'.conns| == |g.conns| + 1
            && g'.conns[|g.conns|].received == g.conns[h].received && g'.conns[|g.conns|].queue == g.ops[i].hand
  {
    hide Refs, OpRefers;
    assert OpRefers(g.ops[i], g.conns) by { OpIsReferred(g, i); }
    OpReferences(g.ops[i], g.conns);
  }

  lemma WritersAct(g: Gateway, a: Action, c: Carrier)
    requires Refs(g) && !g.crashed && Carries(g, c) && (a.Receive? || a.Uncount? || a.Quit? || a.Write?)
    ensures Carries(Step(g, a), Follow(g, a, c))
    ensures Grows(g, Step(g, a), c, Follow(g, a, c)) <==> !OutOfTurn(g, a, c)
  {
    hide Refs, Fate;
    var h := HolderOf(g, c);
    if a == Receive(h) && CanReceive(g, h) {
      ReceivedFirst(g.conns[h].received, HandOf(g, c), g.conns[h].queue);
    }
  }

  /** One action, whoever takes it: the connection's line grows at its tail, unless the action
      is out of turn, and then it does not. */
  lemma StepOrdersExactly(g: Gateway, a: Action, c: Carrier)
    requires Refs(g) && Carries(g, c)
    ensures Carries(Step(g, a), Follow(g, a, c))
    ensures Line(g, c) <= Line(Step(g, a), Follow(g, a, c)) <==> !OutOfTurn(g, a, c)
  {
    hide Refs, AdvanceOp, ReceiveOne, UncountOne, WriteOne, Opened, CanReceive, CanUncount, CanQuit, CanWrite;
    if !g.crashed {
      match a
      case Advance(i, choice) =>
        if i < |g.ops| {
          if c == Moving(i) { MoverAdvances(g, i, choice); } else { OthersAdvance(g, i, choice, c); }
        }
      case Receive(_) => WritersAct(g, a, c);
      case Uncount(_) => WritersAct(g, a, c);
      case Quit(_) => WritersAct(g, a, c);
      case Write(_, _) => WritersAct(g, a, c);
      case _ =>
    }
  }

  // ---------- Main result ----------

  lemma StepCarries(g: Gateway, a: Action, c: Carrier)
    requires Refs(g) && Carries(g, c)
    ensures Refs(Step(g, a)) && Carries(Step(g, a), Follow(g, a, c))
  {
    hide Refs, Carries, Step, Line, OutOfTurn, Follow;
    StepKeepsRefs(g, a);
    StepOrdersExactly(g, a, c);
  }

  /** The connection's carrier after the actions. */
  function Followed(g: Gateway, actions: seq<Action>, c: Carrier): Carrier
    requires Refs(g) && Carries(g, c)
    decreases |actions|
  {
    hide Refs, Carries, Step, Line, OutOfTurn, Follow;
    if actions == [] then c
    else
      StepCarries(g, actions[0], c);
      Followed(Step(g, actions[0]), actions[1..], Follow(g, actions[0], c))
  }

  /** None of the actions is out of turn for the connection. */
  predicate InTurn(g: Gateway, actions: seq<Action>, c: Carrier)
    requires Refs(g) && Carries(g, c)
    decreases |actions|
  {
    hide Refs, Carries, Step, Line, OutOfTurn, Follow;
    actions == []
    || (StepCarries(g, actions[0], c);
        !OutOfTurn(g, actions[0], c) && InTurn(Step(g, actions[0]), actions[1..], Follow(g, actions[0], c)))
  }

  /** From any state of any run on, across any number of reconnects and whatever else goes on,
      the requests that a connection's writers have received, followed by those on their way,
      only grow at the tail, as long as no action is out of turn. */
  lemma {:induction false} LinesOnlyGrow(before: seq<Action>, actions: seq<Action>, c: Carrier)
    requires Carries(Run(before), c) && InTurn(Run(before), actions, c)
    ensures var c' := Followed(Run(before), actions, c);
            Carries(Run(before + actions), c') && Line(Run(before), c) <= Line(Run(before + actions), c')
    decreases |actions|
  {
    hide Run, Step, Refs, Carries, Line, OutOfTurn, Follow;
    if actions == [] {
      assert before + actions == before;
    } else {
      var g, a := Run(before), actions[0];
      StepOrdersExactly(g, a, c);
      RunOnce(before, a);
      assert before + actions == (before + [a]) + actions[1..];
      LinesOnlyGrow(before + [a], actions[1..], Follow(g, a, c));
      assert Line(g, c) <= Line(Step(g, a), Follow(g, a, c));
    }
  }

  // ---------- Who can reorder when users' operations do not overlap ----------

  lemma SourceOfUser(g: Gateway, j: nat)
    requires Refs(g) && j < |g.ops| && Mover(g.ops[j])
    ensures Source(g.ops[j]) < |g.conns| && g.conns[Source(g.ops[j])].user == g.ops[j].user
  {
    OpIsReferred(g, j);
    OpReferences(g.ops[j], g.conns);
  }

  /** As long as no two operations work on the same user at once, only the old writer can put
      the requests of a reconnecting user out of order, by receiving during the drain. */
  lemma OnlyTheWriterReorders(actions: seq<Action>, a: Action, i: nat)
    requires OneAtATime(actions) && Exclusive(Run(actions).ops) && Carries(Run(actions), Moving(i))
    requires OutOfTurn(Run(actions), a, Moving(i))
    ensures a == Receive(HolderOf(Run(actions), Moving(i)))
  {
    hide Run, OneAtATime, Refs, Exclusive, AllCurrent, AllSound;
    var g := Run(actions);
    RunIsOrderly(actions);
    assert FoundEmpty(g.ops[i], g.conns);
    if a.Advance? {
      SourceOfUser(g, i);
      OpIsReferred(g, a.op);
      OpReferences(g.ops[a.op], g.conns);
      ApartWhenBusy(g.ops, i, a.op);
    }
  }
}
