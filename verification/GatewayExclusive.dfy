/** A gateway on which no two operations work on the same user at the same time. */
module GatewayExclusive {
  import opened GoInt
  import opened GatewayChannels
  import opened GatewayOverlap
  import opened GatewaySpec
  import opened GatewayStrays
  import opened GatewayTotals

  /** The operation has a user's connection or wait list in its hands. */
  predicate Busy(op: Op) {
    !op.Dispatching? && !op.Done?
  }

  predicate Exclusive(ops: seq<Op>) {
    forall i, j | 0 <= i < j < |ops| && Busy(ops[i]) && Busy(ops[j]) :: ops[i].user != ops[j].user
  }

  /** In no state of the run before its last one do two operations work on the same user. */
  predicate OneAtATime(actions: seq<Action>) {
    actions == []
    || (OneAtATime(actions[..|actions| - 1]) && Exclusive(Run(actions[..|actions| - 1]).ops))
  }

  /** What the operation has found out about its user still holds. */
  predicate Current(g: Gateway, op: Op) {
    match op
    case Looking(user, _, from) => from.FromRetry? ==> user in g.waitSet
    case Sending(user, _, h, from) => user in g.store && g.store[user] == h && (from.FromRetry? ==> user in g.waitSet)
    case Pushing(user, _, _) => user in g.waitSet
    case Popping(user) => user in g.waitSet
    case Unlisting(user) => Get(g.waiting, user) == []
    case Leaving(user, h, _, why, stage) => (why.Removal? && stage.Discounting?) || (user in g.store && g.store[user] == h)
    case Entering(user, _, _, _) => user !in g.store
    case _ => true
  }

  ghost predicate AllCurrent(g: Gateway) {
    forall i | 0 <= i < |g.ops| :: Current(g, g.ops[i])
  }

  // ---------- An operation's own knowledge ----------

  lemma LookIsCurrent(g: Gateway, i: nat, user: int64, r: Request, from: From)
    requires i < |g.ops| && Current(g, Looking(user, r, from))
    ensures |Look(g, i, user, r, from).ops| == |g.ops|
    ensures Current(Look(g, i, user, r, from), Look(g, i, user, r, from).ops[i])
  {
  }

  lemma SendIsCurrent(g: Gateway, i: nat, user: int64, r: Request, h: nat, from: From, choice: Choice)
    requires i < |g.ops| && h < |g.conns| && g.ops[i] == Sending(user, r, h, from) && Current(g, g.ops[i])
    ensures |Send(g, i, user, r, h, from, choice).ops| == |g.ops|
    ensures Current(Send(g, i, user, r, h, from, choice), Send(g, i, user, r, h, from, choice).ops[i])
  {
  }

  lemma PushIsCurrent(g: Gateway, i: nat, user: int64, r: Request, from: From, choice: Choice)
    requires i < |g.ops|
    ensures PushWaiting(g, i, user, r, from, choice).ops == g.ops[i := Back(from)]
    ensures Finish(Become(g, i, Back(from)), user, r, choice.Works?).ops == g.ops[i := Back(from)]
    ensures Current(PushWaiting(g, i, user, r, from, choice), Back(from))
    ensures Current(Finish(Become(g, i, Back(from)), user, r, choice.Works?), Back(from))
  {
    hide Fate;
  }

  lemma PopIsCurrent(g: Gateway, i: nat, user: int64, choice: Choice)
    requires i < |g.ops| && user in g.waitSet
    ensures |Pop(g, i, user, choice).ops| == |g.ops|
    ensures Current(Pop(g, i, user, choice), Pop(g, i, user, choice).ops[i])
  {
    hide Fate;
  }

  lemma ArriveIsCurrent(g: Gateway, i: nat, user: int64, why: Why)
    requires i < |g.ops| && (user in g.store ==> g.store[user] < |g.conns|)
    ensures |Arrive(g, i, user, why).ops| == |g.ops|
    ensures Current(Arrive(g, i, user, why), Arrive(g, i, user, why).ops[i])
  {
  }

  predicate StillLeaving(g: Gateway, g': Gateway, i: nat, user: int64, h: nat)
    requires i < |g.ops|
  {
    |g'.ops| == |g.ops| && g'.ops[i].Leaving? && g'.ops[i].user == user && g'.ops[i].h == h
  }

  lemma DrainGoesOn(g: Gateway, i: nat, user: int64, h: nat, hand: seq<Request>, why: Why)
    requires i < |g.ops| && h < |g.conns|
    ensures StillLeaving(g, Close(g, i, user, h, why), i, user, h)
    ensures StillLeaving(g, DrainOne(g, i, user, h, hand, why), i, user, h)
    ensures StillLeaving(g, Seal(g, i, user, h, hand, why), i, user, h)
  {
  }

  lemma HandBackGoesOn(g: Gateway, i: nat, user: int64, h: nat, hand: seq<Request>, why: Why, choice: Choice)
    requires i < |g.ops|
    ensures StillLeaving(g, HandBackOne(g, i, user, h, hand, why, choice), i, user, h)
  {
    hide Fate;
  }

  lemma LeaveIsCurrent(g: Gateway, i: nat, user: int64, h: nat, hand: seq<Request>, why: Why, stage: Stage, choice: Choice)
    requires i < |g.ops| && h < |g.conns| && Current(g, Leaving(user, h, hand, why, stage)) && !stage.Forgetting? && !stage.Discounting?
    ensures var g' := Leave(g, i, user, h, hand, why, stage, choice); |g'.ops| == |g.ops| && Current(g', g'.ops[i])
  {
    hide Close, DrainOne, Seal, HandBackOne, Forget, Discount;
    LeaveIsSame(g, i, user, h, hand, why, stage, choice);
    DrainGoesOn(g, i, user, h, hand, why);
    HandBackGoesOn(g, i, user, h, hand, why, choice);
  }

  lemma MovedIsCurrent(g: Gateway, i: nat, choice: Choice)
    requires Refs(g) && i < |g.ops| && Current(g, g.ops[i])
    ensures |AdvanceOp(g, i, choice).ops| == |g.ops|
    ensures Current(AdvanceOp(g, i, choice), AdvanceOp(g, i, choice).ops[i])
  {
    hide Refs, OpRefers, Look, Send, PushWaiting, Pop, Arrive, Leave, Finish;
    assert OpRefers(g.ops[i], g.conns) by { OpIsReferred(g, i); }
    OpReferences(g.ops[i], g.conns);
    match g.ops[i]
    case Looking(user, r, from) => LookIsCurrent(g, i, user, r, from);
    case Sending(user, r, h, from) => SendIsCurrent(g, i, user, r, h, from, choice);
    case Refused(user, r, from) => PushIsCurrent(g, i, user, r, from, choice);
    case Pushing(user, r, from) => PushIsCurrent(g, i, user, r, from, choice);
    case Popping(user) => PopIsCurrent(g, i, user, choice);
    case Arriving(user, why) => StoreRefers(g, user); ArriveIsCurrent(g, i, user, why);
    case Leaving(user, h, hand, why, stage) =>
      if stage.Forgetting? || stage.Discounting? {
        ForgetIsCurrent(g, i, user, h, hand, why, stage, choice);
      } else {
        LeaveIsCurrent(g, i, user, h, hand, why, stage, choice);
      }
    case _ =>
  }

  lemma ForgetIsCurrent(g: Gateway, i: nat, user: int64, h: nat, hand: seq<Request>, why: Why, stage: Stage, choice: Choice)
    requires i < |g.ops| && h < |g.conns| && Current(g, Leaving(user, h, hand, why, stage))
    requires stage.Forgetting? || stage.Discounting?
    ensures var g' := Leave(g, i, user, h, hand, why, stage, choice); |g'.ops| == |g.ops| && Current(g', g'.ops[i])
  {
    hide Close, DrainOne, Seal, HandBackOne;
  }

  // ---------- The knowledge of the others ----------

  /** The store and the wait lists change for one user only. */
  predicate SameFor(g: Gateway, g': Gateway, user: int64) {
    && (user in g'.store <==> user in g.store) && (user in g.store ==> g'.store[user] == g.store[user])
    && (user in g'.waitSet <==> user in g.waitSet) && Get(g'.waiting, user) == Get(g.waiting, user)
  }

  lemma OthersSame(g: Gateway, i: nat, choice: Choice, user: int64)
    requires Refs(g) && i < |g.ops| && (Busy(g.ops[i]) ==> g.ops[i].user != user)
    ensures SameFor(g, AdvanceOp(g, i, choice), user)
  {
    hide AdvanceOp, Refs;
    StoreChanges(g, i, choice);
    ListChanges(g, i, choice);
  }

  lemma StaysCurrent(g: Gateway, g': Gateway, op: Op)
    requires Current(g, op) && (Busy(op) ==> SameFor(g, g', op.user))
    ensures Current(g', op)
  {
  }

  lemma AdvanceKeepsCurrent(g: Gateway, i: nat, choice: Choice)
    requires Refs(g) && i < |g.ops| && Exclusive(g.ops) && AllCurrent(g)
    ensures AllCurrent(AdvanceOp(g, i, choice))
  {
    hide AdvanceOp, Refs, Current, SameFor, Exclusive;
    var g' := AdvanceOp(g, i, choice);
    MovedIsCurrent(g, i, choice);
    OthersStay(g, i, choice);
    forall j | 0 <= j < |g'.ops| ensures Current(g', g'.ops[j]) {
      if j != i {
        if Busy(g.ops[j]) {
          ApartWhenBusy(g.ops, i, j);
          OthersSame(g, i, choice, g.ops[j].user);
        }
        StaysCurrent(g, g', g.ops[j]);
      }
    }
  }

  lemma ApartWhenBusy(ops: seq<Op>, i: nat, j: nat)
    requires Exclusive(ops) && i < |ops| && j < |ops| && i != j && Busy(ops[j])
    ensures Busy(ops[i]) ==> ops[i].user != ops[j].user
  {
  }

  lemma StepKeepsCurrent(g: Gateway, a: Action)
    requires Refs(g) && Exclusive(g.ops) && AllCurrent(g)
    ensures AllCurrent(Step(g, a))
  {
    hide Refs, AdvanceOp, Fate, Opened;
    if !g.crashed && a.Advance? && a.op < |g.ops| {
      AdvanceKeepsCurrent(g, a.op, a.choice);
    }
  }

  // ---------- Channels are left empty ----------

  /** The operation has been through the drain loop. */
  predicate PastDraining(op: Op) {
    (op.Leaving? && !op.stage.Closing? && !op.stage.Draining?) || (op.Entering? && op.prior.Some?)
  }

  function Origin(op: Op): nat
    requires PastDraining(op)
  {
    if op.Leaving? then op.h else op.prior.value
  }

  /** It has found the channel empty, and so it still is. */
  predicate FoundEmpty(op: Op, conns: seq<Conn>) {
    PastDraining(op) ==> Origin(op) < |conns| && conns[Origin(op)].queue == []
  }

  ghost predicate AllFoundEmpty(g: Gateway) {
    forall i | 0 <= i < |g.ops| :: FoundEmpty(g.ops[i], g.conns)
  }

  /** A holder nobody is found by holds no requests. */
  ghost predicate NoStrays(g: Gateway) {
    forall h: nat | h < |g.conns| && !Stored(g, h) :: g.conns[h].queue == []
  }

  /** An operation leaves the drain loop only at an empty channel, or skips it when the holder
      was closed already. */
  lemma PassesAtEmpty(g: Gateway, i: nat, choice: Choice)
    requires Refs(g) && i < |g.ops|
    ensures |AdvanceOp(g, i, choice).ops| == |g.ops|
    ensures var op, op' := g.ops[i], AdvanceOp(g, i, choice).ops[i];
            PastDraining(op') ==>
              && op.Leaving? && Origin(op') == op.h && op.h < |g.conns|
              && (PastDraining(op) || (op.stage.Draining? && g.conns[op.h].queue == [])
                  || (op.stage.Closing? && !g.conns[op.h].closeOpen))
  {
    hide Refs, OpRefers, Look, Send, PushWaiting, Pop, Finish, Leave;
    assert OpRefers(g.ops[i], g.conns) by { OpIsReferred(g, i); }
    OpReferences(g.ops[i], g.conns);
    match g.ops[i]
    case Arriving(user, _) => StoreRefers(g, user);
    case Leaving(user, h, hand, why, stage) => LeavePasses(g, i, user, h, hand, why, stage, choice);
    case Entering(_, _, _, _) =>
    case _ => AdvanceIsQuiet(g, i, choice);
  }

  lemma LeavePasses(g: Gateway, i: nat, user: int64, h: nat, hand: seq<Request>, why: Why, stage: Stage, choice: Choice)
    requires i < |g.ops| && h < |g.conns| && g.ops[i] == Leaving(user, h, hand, why, stage)
    ensures var g' := Leave(g, i, user, h, hand, why, stage, choice);
            && |g'.ops| == |g.ops|
            && (PastDraining(g'.ops[i]) ==>
                  Origin(g'.ops[i]) == h
                  && (PastDraining(g.ops[i]) || (stage.Draining? && g.conns[h].queue == [])
                      || (stage.Closing? && !g.conns[h].closeOpen)))
  {
    hide Fate;
  }

  /** Whoever is about to close a holder is the first to do so. */
  lemma FindsOpen(g: Gateway, i: nat)
    requires Refs(g) && Exclusive(g.ops) && AllCurrent(g) && AllSound(g)
    requires i < |g.ops| && g.ops[i].Leaving? && g.ops[i].stage.Closing?
    ensures g.ops[i].h < |g.conns| && g.conns[g.ops[i].h].closeOpen
  {
    hide Closers;
    var op := g.ops[i];
    assert Current(g, op) && OpRefers(op, g.conns);
    assert Sound(g, op.h);
    forall j | 0 <= j < |g.ops| ensures !Past(g.ops[j], op.h) {
      assert OpRefers(g.ops[j], g.conns);
      if j != i { ApartWhenBusy(g.ops, j, i); }
    }
  }

  /** Another operation's action leaves the emptied channel empty: it would have to send to
      the same user. */
  lemma OthersLeaveEmpty(g: Gateway, i: nat, j: nat, choice: Choice)
    requires Refs(g) && Exclusive(g.ops) && i < |g.ops| && j < |g.ops| && i != j
    requires FoundEmpty(g.ops[j], g.conns)
    ensures FoundEmpty(g.ops[j], AdvanceOp(g, i, choice).conns)
  {
    hide AdvanceOp, Refs, Exclusive;
    if PastDraining(g.ops[j]) {
      AdvanceTracks(g, i, choice, Origin(g.ops[j]));
      ApartWhenBusy(g.ops, i, j);
      OpIsReferred(g, j);
      OpReferences(g.ops[j], g.conns);
      OpIsReferred(g, i);
      OpReferences(g.ops[i], g.conns);
    }
  }

  lemma MovedLeavesEmpty(g: Gateway, i: nat, choice: Choice)
    requires Refs(g) && i < |g.ops| && FoundEmpty(g.ops[i], g.conns)
    requires g.ops[i].Leaving? && g.ops[i].stage.Closing? ==> g.ops[i].h < |g.conns| && g.conns[g.ops[i].h].closeOpen
    ensures |AdvanceOp(g, i, choice).ops| == |g.ops|
    ensures FoundEmpty(AdvanceOp(g, i, choice).ops[i], AdvanceOp(g, i, choice).conns)
  {
    hide AdvanceOp, Refs;
    PassesAtEmpty(g, i, choice);
    if PastDraining(AdvanceOp(g, i, choice).ops[i]) { AdvanceTracks(g, i, choice, g.ops[i].h); }
  }

  lemma AdvanceKeepsEmpty(g: Gateway, i: nat, choice: Choice)
    requires Refs(g) && Exclusive(g.ops) && i < |g.ops| && AllFoundEmpty(g) && AllCurrent(g) && AllSound(g)
    ensures AllFoundEmpty(AdvanceOp(g, i, choice))
  {
    hide AdvanceOp, Refs, Exclusive, FoundEmpty, AllCurrent, AllSound;
    var g' := AdvanceOp(g, i, choice);
    OthersStay(g, i, choice);
    if g.ops[i].Leaving? && g.ops[i].stage.Closing? { FindsOpen(g, i); }
    forall j | 0 <= j < |g'.ops| ensures FoundEmpty(g'.ops[j], g'.conns) {
      if j != i {
        OthersLeaveEmpty(g, i, j, choice);
      } else {
        MovedLeavesEmpty(g, i, choice);
      }
    }
  }

  lemma AdvanceMakesNoStrays(g: Gateway, i: nat, choice: Choice)
    requires Refs(g) && !g.crashed && i < |g.ops| && AllFoundEmpty(g) && AllCurrent(g) && NoStrays(g)
    ensures NoStrays(AdvanceOp(g, i, choice))
  {
    hide AdvanceOp, Refs, OpRefers;
    var g' := AdvanceOp(g, i, choice);
    StoreChanges(g, i, choice);
    NewIsStored(g, i, choice);
    OpIsReferred(g, i);
    OpReferences(g.ops[i], g.conns);
    assert Current(g, g.ops[i]) && FoundEmpty(g.ops[i], g.conns);
    forall h: nat | h < |g'.conns| && !Stored(g', h) ensures g'.conns[h].queue == [] {
      AdvanceTracks(g, i, choice, h);
    }
  }

  lemma StepKeepsEmpty(g: Gateway, a: Action)
    requires Refs(g) && Exclusive(g.ops) && AllFoundEmpty(g) && AllCurrent(g) && AllSound(g) && NoStrays(g)
    ensures AllFoundEmpty(Step(g, a)) && NoStrays(Step(g, a))
  {
    hide Refs, AdvanceOp, Fate, Opened, AllSound, AllCurrent;
    if !g.crashed && a.Advance? && a.op < |g.ops| {
      AdvanceKeepsEmpty(g, a.op, a.choice);
      AdvanceMakesNoStrays(g, a.op, a.choice);
    }
  }

  // ---------- Nothing goes wrong ----------

  /** An operation that has the user to itself never finds a channel it sends on closed. */
  lemma NeverPanics(g: Gateway, a: Action)
    requires Refs(g) && Exclusive(g.ops) && AllCurrent(g) && AllSound(g)
    ensures !Panics(g, a)
  {
    hide Closers;
    if Panics(g, a) {
      var op := g.ops[a.op];
      assert Current(g, op) && OpRefers(op, g.conns);
      assert Sound(g, op.h);
      var i :| 0 <= i < |g.ops| && Past(g.ops[i], op.h);
      assert OpRefers(g.ops[i], g.conns);
      ApartWhenBusy(g.ops, i, a.op);
      assert false;
    }
  }

  lemma NeverStrands(g: Gateway, a: Action, user: int64)
    requires AllCurrent(g)
    ensures !Strands(g, a, user)
  {
    if a.Advance? && a.op < |g.ops| { assert Current(g, g.ops[a.op]); }
  }

  lemma NeverDrifts(g: Gateway, a: Action)
    requires AllCurrent(g)
    ensures Drift(g, a) == 0
  {
    if a.Advance? && a.op < |g.ops| { assert Current(g, g.ops[a.op]); }
  }

  ghost predicate Orderly(g: Gateway) {
    && AllCurrent(g) && AllSound(g) && AllFoundEmpty(g) && NoStrays(g)
    && !g.crashed && g.connCount == |g.store| + LagSum(g.ops) && forall u: int64 :: !Stranded(g, u)
  }

  lemma StepStaysOrderly(g: Gateway, a: Action)
    requires Refs(g) && Exclusive(g.ops) && Orderly(g)
    ensures Orderly(Step(g, a))
  {
    hide Step, Refs, AllCurrent, AllSound, AllFoundEmpty, NoStrays, Stranded, Panics, Strands, Exclusive, LagSum;
    StepKeepsCurrent(g, a);
    StepKeepsEmpty(g, a);
    StepKeepsSound(g, a);
    NeverPanics(g, a);
    CrashesExactly(g, a);
    NeverDrifts(g, a);
    StepDrifts(g, a);
    forall u: int64 ensures !Stranded(Step(g, a), u) {
      NeverStrands(g, a, u);
      StepStrands(g, a, u);
    }
  }

  lemma {:induction false} RunIsOrderly(actions: seq<Action>)
    requires OneAtATime(actions)
    ensures Orderly(Run(actions))
  {
    hide Step, Orderly, Refs, Exclusive;
    if actions == [] {
      IdleIsOrderly();
    } else {
      RunIsOrderly(actions[..|actions| - 1]);
      StepStaysOrderly(Run(actions[..|actions| - 1]), actions[|actions| - 1]);
    }
  }

  lemma IdleIsOrderly()
    ensures Orderly(IDLE)
  {
  }

  lemma {:induction false} NoStraysIsZero(sizes: seq<nat>)
    requires forall h | 0 <= h < |sizes| :: sizes[h] == 0
    ensures Total(sizes) == 0
  {
    if sizes != [] { NoStraysIsZero(sizes[..|sizes| - 1]); }
  }

  /** As long as no two operations work on the same user at once - those of different users, all
      dispatches and all writers may overlap in any way - the gateway never panics, its
      connection count is exact, totalPending is the number of requests in the channels that
      users are found by and in the hands of writers and operations, every user with waiting
      messages is retried, and an operation finds its user's holder as it left it. */
  lemma OneAtATimeIsExact(actions: seq<Action>)
    requires OneAtATime(actions)
    ensures var g := Run(actions);
            && !g.crashed
            && g.connCount == |g.store| + LagSum(g.ops)
            && g.totalPending == Total(StoredSizes(g)) + TakenSum(g.conns) + HeldSum(g.ops)
            && (forall u: int64 | Get(g.waiting, u) != [] :: u in g.waitSet)
            && (forall i | 0 <= i < |g.ops| && (g.ops[i].Sending? || (g.ops[i].Leaving? && !g.ops[i].stage.Discounting?)) ::
                  g.ops[i].user in g.store && g.store[g.ops[i].user] == g.ops[i].h)
  {
    hide Run, OneAtATime, AllSound, AllFoundEmpty, LagSum, Total, TakenSum, HeldSum, StrayGains;
    RunIsOrderly(actions);
    var g := Run(actions);
    StoredTotalsExactly(actions);
    NoStraysIsZero(StraySizes(g));
    forall u: int64 | Get(g.waiting, u) != [] ensures u in g.waitSet { assert !Stranded(g, u); }
    forall i | 0 <= i < |g.ops| && (g.ops[i].Sending? || (g.ops[i].Leaving? && !g.ops[i].stage.Discounting?))
      ensures g.ops[i].user in g.store && g.store[g.ops[i].user] == g.ops[i].h
    {
      assert Current(g, g.ops[i]);
    }
  }
}
