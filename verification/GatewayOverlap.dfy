/** What overlapping operations of one user can and cannot break on a gateway, over every run
    of GatewaySpec's actions. */
module GatewayOverlap {
  import opened GoInt
  import opened GatewaySpec
  import opened Wrappers

  // ---------- What an action changes ----------

  /** Sends on a channel that a removal or a reconnect has closed. */
  ghost predicate Panics(g: Gateway, a: Action)
    requires Refs(g)
  {
    a.Advance? && a.op < |g.ops| && g.ops[a.op].Sending? && !g.conns[g.ops[a.op].h].sendOpen
  }

  /** Nothing happens to the store, the wait lists, and the process. */
  ghost predicate Same(g: Gateway, g': Gateway) {
    && g'.store == g.store && g'.connCount == g.connCount
    && g'.waiting == g.waiting && g'.waitSet == g.waitSet && g'.crashed == g.crashed
  }

  lemma FinishIsSame(g: Gateway, g1: Gateway, user: int64, r: Request, ok: bool)
    requires Same(g, g1)
    ensures Same(g, Finish(g1, user, r, ok))
  {
    hide Fate;
  }

  lemma CloseIsSame(g: Gateway, i: nat, user: int64, h: nat, why: Why)
    requires i < |g.ops| && h < |g.conns|
    ensures Same(g, Close(g, i, user, h, why))
  {
  }

  lemma DrainIsSame(g: Gateway, i: nat, user: int64, h: nat, hand: seq<Request>, why: Why)
    requires i < |g.ops| && h < |g.conns|
    ensures Same(g, DrainOne(g, i, user, h, hand, why)) && Same(g, Seal(g, i, user, h, hand, why))
  {
  }

  lemma HandBackIsSame(g: Gateway, i: nat, user: int64, h: nat, hand: seq<Request>, why: Why, choice: Choice)
    requires i < |g.ops|
    ensures Same(g, HandBackOne(g, i, user, h, hand, why, choice))
  {
    hide Fate;
  }

  lemma LeaveIsSame(g: Gateway, i: nat, user: int64, h: nat, hand: seq<Request>, why: Why, stage: Stage, choice: Choice)
    requires i < |g.ops| && h < |g.conns| && !stage.Forgetting? && !stage.Discounting?
    ensures Same(g, Leave(g, i, user, h, hand, why, stage, choice))
  {
    hide Close, DrainOne, Seal, HandBackOne;
    CloseIsSame(g, i, user, h, why);
    DrainIsSame(g, i, user, h, hand, why);
    HandBackIsSame(g, i, user, h, hand, why, choice);
  }

  lemma SendIsSame(g: Gateway, i: nat, user: int64, r: Request, h: nat, from: From, choice: Choice)
    requires i < |g.ops| && h < |g.conns|
    ensures if g.conns[h].sendOpen then Same(g, Send(g, i, user, r, h, from, choice))
            else Send(g, i, user, r, h, from, choice) == g.(crashed := true)
  {
  }

  lemma PopChanges(g: Gateway, i: nat, user: int64, choice: Choice)
    requires i < |g.ops|
    ensures var list := Get(g.waiting, user);
            if choice.Fails? || list == [] then Same(g, Pop(g, i, user, choice))
            else Same(g.(waiting := g.waiting[user := list[1..]]), Pop(g, i, user, choice))
  {
    hide Fate;
  }

  lemma PushChanges(g: Gateway, i: nat, user: int64, r: Request, from: From, choice: Choice)
    requires i < |g.ops|
    ensures if choice.Works? then Same(g.(waiting := g.waiting[user := Get(g.waiting, user) + [r]]), PushWaiting(g, i, user, r, from, choice))
            else Same(g, PushWaiting(g, i, user, r, from, choice))
  {
    hide Fate;
  }

  /** The actions that change neither the store nor the wait lists. */
  predicate Bland(op: Op) {
    && !(op.Leaving? && (op.stage.Forgetting? || op.stage.Discounting?)) && !op.Entering? && !op.Admitting?
    && !op.Listing? && !op.Unlisting? && !op.Pushing? && !op.Popping?
  }

  lemma BlandIsSame(g: Gateway, i: nat, choice: Choice)
    requires Refs(g) && i < |g.ops| && Bland(g.ops[i]) && !Panics(g, Advance(i, choice))
    ensures Same(g, AdvanceOp(g, i, choice))
  {
    hide Look, Send, Leave, Finish, OpRefers;
    assert OpRefers(g.ops[i], g.conns);
    OpReferences(g.ops[i], g.conns);
    match g.ops[i]
    case Looking(user, r, from) => LookIsSame(g, i, user, r, from);
    case Sending(user, r, h, from) => SendIsSame(g, i, user, r, h, from, choice);
    case Refused(user, r, from) => FinishIsSame(g, Become(g, i, Back(from)), user, r, choice.Works?);
    case Leaving(user, h, hand, why, stage) => LeaveIsSame(g, i, user, h, hand, why, stage, choice);
    case _ =>
  }

  lemma LookIsSame(g: Gateway, i: nat, user: int64, r: Request, from: From)
    requires i < |g.ops|
    ensures Same(g, Look(g, i, user, r, from))
  {
  }

  lemma StoreChanges(g: Gateway, i: nat, choice: Choice)
    requires Refs(g) && i < |g.ops|
    ensures var g', op := AdvanceOp(g, i, choice), g.ops[i];
            && g'.store == (if op.Leaving? && op.stage.Forgetting? then g.store - {op.user}
                            else if op.Entering? then g.store[op.user := |g.conns|]
                            else g.store)
            && g'.connCount == (if op.Leaving? && op.stage.Discounting? then g.connCount - 1
                                else if op.Admitting? then g.connCount + 1
                                else g.connCount)
  {
    hide Finish, Pop, PushWaiting, Send, Look, OpRefers, Arrive, Fate;
    var op := g.ops[i];
    assert OpRefers(op, g.conns);
    OpReferences(op, g.conns);
    if Bland(op) && !Panics(g, Advance(i, choice)) {
      BlandIsSame(g, i, choice);
    } else {
      match op
      case Sending(user, r, h, from) => SendIsSame(g, i, user, r, h, from, choice);
      case Pushing(user, r, from) => PushChanges(g, i, user, r, from, choice);
      case Popping(user) => PopChanges(g, i, user, choice);
      case _ =>
    }
  }

  lemma ListChanges(g: Gateway, i: nat, choice: Choice)
    requires Refs(g) && i < |g.ops|
    ensures var g', op := AdvanceOp(g, i, choice), g.ops[i];
            && g'.waitSet == (if op.Listing? then g.waitSet + {op.user}
                              else if op.Unlisting? then g.waitSet - {op.user}
                              else g.waitSet)
            && g'.waiting == (if op.Pushing? && choice.Works? then g.waiting[op.user := Get(g.waiting, op.user) + [op.r]]
                              else if op.Popping? && !choice.Fails? && Get(g.waiting, op.user) != [] then
                                g.waiting[op.user := Get(g.waiting, op.user)[1..]]
                              else g.waiting)
  {
    hide Finish, Pop, PushWaiting, Send, Look, OpRefers, Arrive, Fate;
    var op := g.ops[i];
    assert OpRefers(op, g.conns);
    OpReferences(op, g.conns);
    if Bland(op) && !Panics(g, Advance(i, choice)) {
      BlandIsSame(g, i, choice);
    } else {
      match op
      case Sending(user, r, h, from) => SendIsSame(g, i, user, r, h, from, choice);
      case Pushing(user, r, from) => PushChanges(g, i, user, r, from, choice);
      case Popping(user) => PopChanges(g, i, user, choice);
      case _ =>
    }
  }

  lemma CrashChanges(g: Gateway, i: nat, choice: Choice)
    requires Refs(g) && i < |g.ops|
    ensures AdvanceOp(g, i, choice).crashed == (g.crashed || Panics(g, Advance(i, choice)))
  {
    hide Finish, Pop, PushWaiting, Send, Look, OpRefers, Arrive, Fate;
    var op := g.ops[i];
    assert OpRefers(op, g.conns);
    OpReferences(op, g.conns);
    if Bland(op) && !Panics(g, Advance(i, choice)) {
      BlandIsSame(g, i, choice);
    } else {
      match op
      case Sending(user, r, h, from) => SendIsSame(g, i, user, r, h, from, choice);
      case Pushing(user, r, from) => PushChanges(g, i, user, r, from, choice);
      case Popping(user) => PopChanges(g, i, user, choice);
      case _ =>
    }
  }

  /** Only advancing operations touch the store and the wait lists. */
  lemma OthersAreSame(g: Gateway, a: Action)
    requires Refs(g)
    ensures if !g.crashed && a.Advance? && a.op < |g.ops| then Step(g, a) == AdvanceOp(g, a.op, a.choice) else Same(g, Step(g, a))
  {
    hide AdvanceOp, Fate, Opened, Refs;
  }

  lemma CrashesExactly(g: Gateway, a: Action)
    requires Refs(g)
    ensures Step(g, a).crashed <==> g.crashed || Panics(g, a)
  {
    hide Step, AdvanceOp, Refs;
    OthersAreSame(g, a);
    if !g.crashed && a.Advance? && a.op < |g.ops| { CrashChanges(g, a.op, a.choice); }
  }

  // ---------- Stranded messages ----------

  /** The user has waiting messages and the retry loop does not visit it. */
  predicate Stranded(g: Gateway, user: int64) {
    Get(g.waiting, user) != [] && user !in g.waitSet
  }

  /** Unlists a user whose list has been filled since it was measured, or fills the list of a
      user who has been unlisted since it was listed. */
  predicate Strands(g: Gateway, a: Action, user: int64) {
    && !g.crashed && a.Advance? && a.op < |g.ops|
    && ((g.ops[a.op] == Unlisting(user) && Get(g.waiting, user) != [])
        || (g.ops[a.op].Pushing? && g.ops[a.op].user == user && a.choice.Works? && user !in g.waitSet))
  }

  /** Another message of the user times out, or a retry already under way takes the last. */
  predicate Rescues(g: Gateway, a: Action, user: int64) {
    && !g.crashed && a.Advance? && a.op < |g.ops|
    && ((g.ops[a.op].Listing? && g.ops[a.op].user == user)
        || (g.ops[a.op] == Popping(user) && !a.choice.Fails? && |Get(g.waiting, user)| == 1))
  }

  lemma StepStrands(g: Gateway, a: Action, user: int64)
    requires Refs(g)
    ensures Stranded(Step(g, a), user) <==> Strands(g, a, user) || (Stranded(g, user) && !Rescues(g, a, user))
  {
    hide Step, AdvanceOp, Refs;
    OthersAreSame(g, a);
    if !g.crashed && a.Advance? && a.op < |g.ops| { ListChanges(g, a.op, a.choice); }
  }

  ghost predicate StrandedAt(actions: seq<Action>, user: int64, k: nat)
    requires k < |actions|
  {
    && Strands(Run(actions[..k]), actions[k], user)
    && forall j | k < j < |actions| :: !Rescues(Run(actions[..j]), actions[j], user)
  }

  /** A user with waiting messages is in the set the retry loop walks, unless an action stranded
      it and none has rescued it since. */
  lemma {:induction false} StrandsExactly(actions: seq<Action>, user: int64)
    ensures Stranded(Run(actions), user) <==> exists k :: 0 <= k < |actions| && StrandedAt(actions, user, k)
  {
    hide Step, Strands, Rescues, Stranded, Refs, StrandedAt;
    if actions == [] {
      IdleStrandsNobody(user);
    } else {
      var n := |actions| - 1;
      var before := actions[..n];
      StrandsExactly(before, user);
      StepStrands(Run(before), actions[n], user);
      LastStrands(actions, user);
      forall k: nat | k < n ensures StrandedAt(actions, user, k)
                                    <==> StrandedAt(before, user, k) && !Rescues(Run(before), actions[n], user)
      {
        LongerStrands(actions, user, k);
      }
    }
  }

  lemma IdleStrandsNobody(user: int64)
    ensures Run([]) == IDLE && !Stranded(IDLE, user)
  {
  }

  lemma LastStrands(actions: seq<Action>, user: int64)
    requires actions != []
    ensures var n := |actions| - 1; StrandedAt(actions, user, n) <==> Strands(Run(actions[..n]), actions[n], user)
  {
    hide Run, Strands;
  }

  lemma LongerStrands(actions: seq<Action>, user: int64, k: nat)
    requires k < |actions| - 1
    ensures var n := |actions| - 1;
            StrandedAt(actions, user, k)
            <==> StrandedAt(actions[..n], user, k) && !Rescues(Run(actions[..n]), actions[n], user)
  {
    hide Run, Strands, Rescues;
    var n := |actions| - 1;
    forall j | 0 <= j < n ensures actions[..n][..j] == actions[..j] && actions[..n][j] == actions[j] { }
  }

  // ---------- Closed channels ----------

  function Shut(c: Conn): nat {
    if c.closeOpen then 0 else 1
  }

  /** The operation is about to close the holder. */
  function Closer(op: Op, h: nat): nat {
    if op.Leaving? && op.h == h && op.stage.Closing? then 1 else 0
  }

  function Closers(ops: seq<Op>, h: nat): nat {
    if ops == [] then 0 else Closers(ops[..|ops| - 1], h) + Closer(ops[|ops| - 1], h)
  }

  /** The operation has been through the closing of the holder and not forgotten it yet. */
  predicate Past(op: Op, h: nat) {
    op.Leaving? && op.h == h && !op.stage.Closing? && !(op.why.Removal? && op.stage.Discounting?)
  }

  predicate Stored(g: Gateway, h: nat)
    requires h < |g.conns|
  {
    g.conns[h].user in g.store && g.store[g.conns[h].user] == h
  }

  /** Removals and reconnects account for the closed channels of a holder: the send channel is
      closed only after the close channel; each has been loaded at most one close for every
      operation that loaded the holder; and while users can still find a closed holder, some
      operation is busy with it. */
  ghost predicate Sound(g: Gateway, h: nat)
    requires h < |g.conns|
  {
    var c := g.conns[h];
    && (!c.sendOpen ==> !c.closeOpen)
    && Closers(g.ops, h) + Shut(c) <= c.leavers
    && (Stored(g, h) && !c.closeOpen ==> exists i :: 0 <= i < |g.ops| && Past(g.ops[i], h))
  }

  /** What drains a holder or closes its send channel has found it closed. */
  predicate OpSound(op: Op, conns: seq<Conn>) {
    op.Leaving? && (op.stage.Draining? || op.stage.Sealing?) ==> op.h < |conns| && !conns[op.h].closeOpen
  }

  ghost predicate AllSound(g: Gateway) {
    && (forall h | 0 <= h < |g.conns| :: Sound(g, h))
    && (forall i | 0 <= i < |g.ops| :: OpSound(g.ops[i], g.conns))
  }

  lemma {:induction false} ClosersUpdate(ops: seq<Op>, i: nat, op: Op, h: nat)
    requires i < |ops|
    ensures Closers(ops[i := op], h) + Closer(ops[i], h) == Closers(ops, h) + Closer(op, h)
  {
    hide Closer;
    var last := |ops| - 1;
    if i == last {
      assert ops[i := op][..last] == ops[..last];
    } else {
      assert ops[i := op][..last] == ops[..last][i := op];
      ClosersUpdate(ops[..last], i, op, h);
    }
  }

  lemma ClosersAppend(ops: seq<Op>, op: Op, h: nat)
    ensures Closers(ops + [op], h) == Closers(ops, h) + Closer(op, h)
  {
    hide Closer;
    assert (ops + [op])[..|ops|] == ops;
  }

  lemma {:induction false} ClosersAtLeast(ops: seq<Op>, i: nat, h: nat)
    requires i < |ops|
    ensures Closers(ops, h) >= Closer(ops[i], h)
  {
    if i < |ops| - 1 { ClosersAtLeast(ops[..|ops| - 1], i, h); }
  }

  lemma {:induction false} NobodyCloses(ops: seq<Op>, conns: seq<Conn>, h: nat)
    requires |conns| <= h && forall i | 0 <= i < |ops| :: OpRefers(ops[i], conns)
    ensures Closers(ops, h) == 0
  {
    if ops != [] {
      NobodyCloses(ops[..|ops| - 1], conns, h);
      OpReferences(ops[|ops| - 1], conns);
    }
  }

  /** How operation `i` may change what concerns a holder. */
  ghost predicate HolderStep(g: Gateway, g': Gateway, i: nat, h: nat)
    requires i < |g.ops| && h < |g.conns|
  {
    && |g'.ops| == |g.ops| && g'.ops == g.ops[i := g'.ops[i]] && h < |g'.conns|
    && var c, c' := g.conns[h], g'.conns[h];
       && c'.user == c.user && (!c'.sendOpen ==> !c.sendOpen || !c'.closeOpen) && (!c.closeOpen ==> !c'.closeOpen)
       && Closer(g'.ops[i], h) + Shut(c') + c.leavers <= Closer(g.ops[i], h) + Shut(c) + c'.leavers
       && (Stored(g', h) ==> Stored(g, h))
       && (Stored(g', h) && !c'.closeOpen ==> Past(g'.ops[i], h) || (!c.closeOpen && !Past(g.ops[i], h)))
  }

  lemma HolderKept(g: Gateway, g': Gateway, i: nat, h: nat)
    requires i < |g.ops| && h < |g.conns| && Sound(g, h) && HolderStep(g, g', i, h)
    ensures Sound(g', h)
  {
    hide Closers, Closer, Stored, Past;
    ClosersUpdate(g.ops, i, g'.ops[i], h);
    if Stored(g', h) && !g'.conns[h].closeOpen {
      if Past(g'.ops[i], h) {
      } else {
        var j :| 0 <= j < |g.ops| && Past(g.ops[j], h);
        assert g'.ops[j] == g.ops[j];
      }
    }
  }

  /** Channel flags, loads and owner stay as they are. */
  predicate SameFlags(c: Conn, c': Conn) {
    c'.user == c.user && c'.sendOpen == c.sendOpen && c'.closeOpen == c.closeOpen && c'.leavers == c.leavers
  }

  /** Nobody leaves, and the holders and the store stay as they are. */
  lemma QuietHolder(g: Gateway, g': Gateway, i: nat, h: nat)
    requires i < |g.ops| && h < |g.conns| <= |g'.conns| && SameFlags(g.conns[h], g'.conns[h])
    requires |g'.ops| == |g.ops| && g'.ops == g.ops[i := g'.ops[i]] && !g.ops[i].Leaving? && !g'.ops[i].Leaving?
    requires g'.store == g.store
    requires Sound(g, h)
    ensures HolderStep(g, g', i, h)
  {
  }

  lemma ArriveSteps(g: Gateway, i: nat, user: int64, why: Why, h: nat)
    requires Refs(g) && i < |g.ops| && g.ops[i] == Arriving(user, why) && h < |g.conns| && Sound(g, h)
    ensures HolderStep(g, Arrive(g, i, user, why), i, h)
  {
    hide Refs, Closers;
    assert user in g.store ==> g.store[user] < |g.conns| by { StoreRefers(g, user); }
    if user !in g.store { QuietHolder(g, Arrive(g, i, user, why), i, h); }
  }

  lemma CloseSteps(g: Gateway, i: nat, user: int64, l: nat, why: Why, h: nat)
    requires i < |g.ops| && g.ops[i] == Leaving(user, l, [], why, Closing) && l < |g.conns| && h < |g.conns| && Sound(g, h)
    ensures HolderStep(g, Close(g, i, user, l, why), i, h)
  {
    hide Closers;
  }

  lemma DrainSteps(g: Gateway, i: nat, user: int64, l: nat, hand: seq<Request>, why: Why, h: nat)
    requires i < |g.ops| && g.ops[i] == Leaving(user, l, hand, why, Draining) && l < |g.conns| && h < |g.conns| && Sound(g, h)
    ensures HolderStep(g, DrainOne(g, i, user, l, hand, why), i, h)
  {
    hide Closers;
  }

  lemma SealSteps(g: Gateway, i: nat, user: int64, l: nat, hand: seq<Request>, why: Why, h: nat)
    requires i < |g.ops| && g.ops[i] == Leaving(user, l, hand, why, Sealing) && l < |g.conns| && h < |g.conns| && Sound(g, h)
    requires OpSound(g.ops[i], g.conns)
    ensures HolderStep(g, Seal(g, i, user, l, hand, why), i, h)
  {
    hide Closers;
  }

  lemma HandBackSteps(g: Gateway, i: nat, user: int64, l: nat, hand: seq<Request>, why: Why, choice: Choice, h: nat)
    requires i < |g.ops| && g.ops[i] == Leaving(user, l, hand, why, HandingBack) && h < |g.conns| && Sound(g, h)
    ensures HolderStep(g, HandBackOne(g, i, user, l, hand, why, choice), i, h)
  {
    hide Closers, Fate;
  }

  lemma ForgetSteps(g: Gateway, i: nat, user: int64, l: nat, hand: seq<Request>, why: Why, h: nat)
    requires i < |g.ops| && g.ops[i] == Leaving(user, l, hand, why, Forgetting) && l < |g.conns| && g.conns[l].user == user
    requires h < |g.conns| && Sound(g, h)
    ensures HolderStep(g, Forget(g, i, user, l, hand, why), i, h)
  {
    hide Closers;
  }

  lemma UncountSteps(g: Gateway, i: nat, user: int64, l: nat, hand: seq<Request>, why: Why, h: nat)
    requires i < |g.ops| && g.ops[i] == Leaving(user, l, hand, why, Uncounting) && h < |g.conns| && Sound(g, h)
    ensures HolderStep(g, Become(g.(totalPending := g.totalPending - |hand|), i, Leaving(user, l, hand, why, HandingBack)), i, h)
  {
    hide Closers;
  }

  lemma DiscountSteps(g: Gateway, i: nat, user: int64, l: nat, hand: seq<Request>, why: Why, h: nat)
    requires i < |g.ops| && g.ops[i] == Leaving(user, l, hand, why, Discounting) && h < |g.conns| && Sound(g, h)
    ensures HolderStep(g, Discount(g, i, user, l, hand, why), i, h)
  {
    hide Closers;
  }

  lemma EnterSteps(g: Gateway, i: nat, user: int64, buffer: nat, hand: seq<Request>, prior: Option<nat>, h: nat)
    requires i < |g.ops| && g.ops[i] == Entering(user, buffer, hand, prior) && (prior.Some? ==> prior.value < |g.conns|)
    requires h < |g.conns| && Sound(g, h)
    ensures HolderStep(g, Enter(g, i, user, buffer, hand, prior), i, h)
  {
    hide Closers;
  }

  lemma LeaveSteps(g: Gateway, i: nat, user: int64, l: nat, hand: seq<Request>, why: Why, stage: Stage, choice: Choice, h: nat)
    requires i < |g.ops| && g.ops[i] == Leaving(user, l, hand, why, stage) && OpRefers(g.ops[i], g.conns)
    requires OpSound(g.ops[i], g.conns) && h < |g.conns| && Sound(g, h)
    ensures HolderStep(g, Leave(g, i, user, l, hand, why, stage, choice), i, h)
  {
    hide HolderStep, Sound, Close, DrainOne, Seal, HandBackOne, Forget, Discount, Become;
    match stage
    case Closing => CloseSteps(g, i, user, l, why, h);
    case Draining => DrainSteps(g, i, user, l, hand, why, h);
    case Sealing => SealSteps(g, i, user, l, hand, why, h);
    case Uncounting => UncountSteps(g, i, user, l, hand, why, h);
    case HandingBack => HandBackSteps(g, i, user, l, hand, why, choice, h);
    case Forgetting => ForgetSteps(g, i, user, l, hand, why, h);
    case Discounting => DiscountSteps(g, i, user, l, hand, why, h);
  }

  /** What all actions do that neither load, close nor store a holder. */
  ghost predicate Quiet(g: Gateway, g': Gateway, i: nat)
    requires i < |g.ops|
  {
    && |g'.ops| == |g.ops| && g'.ops == g.ops[i := g'.ops[i]]
    && !g'.ops[i].Leaving? && !g'.ops[i].Entering? && !g'.ops[i].Admitting?
    && g'.store == g.store && |g'.conns| == |g.conns|
    && (forall h | 0 <= h < |g.conns| :: SameFlags(g.conns[h], g'.conns[h]))
  }

  lemma SendIsQuiet(g: Gateway, i: nat, user: int64, r: Request, h: nat, from: From, choice: Choice)
    requires i < |g.ops| && g.ops[i] == Sending(user, r, h, from) && h < |g.conns|
    ensures Quiet(g, Send(g, i, user, r, h, from, choice), i)
  {
  }

  lemma PopIsQuiet(g: Gateway, i: nat, user: int64, choice: Choice)
    requires i < |g.ops|
    ensures Quiet(g, Pop(g, i, user, choice), i)
  {
    hide Fate;
  }

  lemma PushIsQuiet(g: Gateway, i: nat, user: int64, r: Request, from: From, choice: Choice)
    requires i < |g.ops|
    ensures Quiet(g, PushWaiting(g, i, user, r, from, choice), i)
    ensures Quiet(g, Finish(Become(g, i, Back(from)), user, r, choice.Works?), i)
  {
    hide Fate;
  }

  lemma LookIsQuiet(g: Gateway, i: nat, user: int64, r: Request, from: From)
    requires i < |g.ops|
    ensures Quiet(g, Look(g, i, user, r, from), i)
  {
  }

  /** An operation that only moves on. */
  lemma BecomeIsQuiet(g: Gateway, g1: Gateway, i: nat, op: Op)
    requires i < |g.ops| && g1.ops == g.ops && g1.conns == g.conns && g1.store == g.store
    requires !op.Leaving? && !op.Entering? && !op.Admitting?
    ensures Quiet(g, Become(g1, i, op), i)
  {
  }

  lemma NothingIsQuiet(g: Gateway, i: nat)
    requires i < |g.ops| && !g.ops[i].Leaving? && !g.ops[i].Entering? && !g.ops[i].Admitting?
    ensures Quiet(g, g, i)
  {
  }

  lemma AdvanceIsQuiet(g: Gateway, i: nat, choice: Choice)
    requires Refs(g) && i < |g.ops| && !g.ops[i].Arriving? && !g.ops[i].Leaving? && !g.ops[i].Entering?
    ensures Quiet(g, AdvanceOp(g, i, choice), i)
  {
    hide OpRefers, Look, Send, Pop, PushWaiting, Finish, Become, Quiet;
    assert OpRefers(g.ops[i], g.conns);
    OpReferences(g.ops[i], g.conns);
    match g.ops[i]
    case Dispatching(body, rest) =>
      BecomeIsQuiet(g, g, i, if rest == [] then Done else Looking(rest[0], Push(body), FromDispatch(body, rest[1..])));
    case Looking(user, r, from) => LookIsQuiet(g, i, user, r, from);
    case Sending(user, r, h, from) => SendIsQuiet(g, i, user, r, h, from, choice);
    case Counting(user, from) =>
      BecomeIsQuiet(g, g.(totalPending := g.totalPending + 1), i, if from.FromRetry? then Measuring(user) else Back(from));
    case Refused(user, r, from) => PushIsQuiet(g, i, user, r, from, choice);
    case Listing(user, r, from) => BecomeIsQuiet(g, g.(waitSet := g.waitSet + {user}), i, Pushing(user, r, from));
    case Pushing(user, r, from) => PushIsQuiet(g, i, user, r, from, choice);
    case Popping(user) => PopIsQuiet(g, i, user, choice);
    case Measuring(user) =>
      BecomeIsQuiet(g, g, i, if choice.Works? && Get(g.waiting, user) == [] then Unlisting(user) else Done);
    case Unlisting(user) => BecomeIsQuiet(g, g.(waitSet := g.waitSet - {user}), i, Done);
    case Admitting(_) => BecomeIsQuiet(g, g.(connCount := g.connCount + 1), i, Done);
    case Done => NothingIsQuiet(g, i);
  }

  lemma AdvanceSteps(g: Gateway, i: nat, choice: Choice, h: nat)
    requires Refs(g) && i < |g.ops| && h < |g.conns| && Sound(g, h) && OpSound(g.ops[i], g.conns)
    ensures HolderStep(g, AdvanceOp(g, i, choice), i, h)
  {
    hide HolderStep, Refs, Sound, OpRefers, OpSound, SameFlags, Look, Send, PushWaiting, Pop, Arrive, Leave, Enter, Finish, Become;
    assert OpRefers(g.ops[i], g.conns) by { OpIsReferred(g, i); }
    OpReferences(g.ops[i], g.conns);
    match g.ops[i]
    case Arriving(user, why) => StoreRefers(g, user); ArriveSteps(g, i, user, why, h);
    case Leaving(user, l, hand, why, stage) => LeaveSteps(g, i, user, l, hand, why, stage, choice, h);
    case Entering(user, buffer, hand, prior) => EnterSteps(g, i, user, buffer, hand, prior, h);
    case _ =>
      AdvanceIsQuiet(g, i, choice);
      QuietHolder(g, AdvanceOp(g, i, choice), i, h);
  }

  lemma CloseMovesSound(g: Gateway, i: nat, user: int64, h: nat, why: Why)
    requires i < |g.ops| && h < |g.conns|
    ensures var g' := Close(g, i, user, h, why); |g'.ops| == |g.ops| && OpSound(g'.ops[i], g'.conns)
  {
  }

  lemma DrainMovesSound(g: Gateway, i: nat, user: int64, h: nat, hand: seq<Request>, why: Why)
    requires i < |g.ops| && h < |g.conns| && !g.conns[h].closeOpen
    ensures var g' := DrainOne(g, i, user, h, hand, why); |g'.ops| == |g.ops| && OpSound(g'.ops[i], g'.conns)
  {
  }

  lemma LaterMovesSound(g: Gateway, i: nat, user: int64, h: nat, hand: seq<Request>, why: Why, choice: Choice)
    requires i < |g.ops| && h < |g.conns|
    ensures var g' := Seal(g, i, user, h, hand, why); |g'.ops| == |g.ops| && OpSound(g'.ops[i], g'.conns)
    ensures var g' := HandBackOne(g, i, user, h, hand, why, choice); |g'.ops| == |g.ops| && OpSound(g'.ops[i], g'.conns)
    ensures var g' := Forget(g, i, user, h, hand, why); |g'.ops| == |g.ops| && OpSound(g'.ops[i], g'.conns)
    ensures var g' := Discount(g, i, user, h, hand, why); |g'.ops| == |g.ops| && OpSound(g'.ops[i], g'.conns)
  {
    hide Fate;
  }

  lemma LeaveMovesSound(g: Gateway, i: nat, user: int64, h: nat, hand: seq<Request>, why: Why, stage: Stage, choice: Choice)
    requires i < |g.ops| && g.ops[i] == Leaving(user, h, hand, why, stage) && h < |g.conns| && OpSound(g.ops[i], g.conns)
    ensures var g' := Leave(g, i, user, h, hand, why, stage, choice); |g'.ops| == |g.ops| && OpSound(g'.ops[i], g'.conns)
  {
    hide Close, DrainOne, Seal, HandBackOne, Forget, Discount;
    match stage
    case Closing => CloseMovesSound(g, i, user, h, why);
    case Draining => DrainMovesSound(g, i, user, h, hand, why);
    case _ => LaterMovesSound(g, i, user, h, hand, why, choice);
  }

  /** The operation that moved has found what it drains closed. */
  lemma MovedOpSound(g: Gateway, i: nat, choice: Choice)
    requires Refs(g) && i < |g.ops| && OpSound(g.ops[i], g.conns)
    ensures |AdvanceOp(g, i, choice).ops| == |g.ops|
    ensures OpSound(AdvanceOp(g, i, choice).ops[i], AdvanceOp(g, i, choice).conns)
  {
    hide Refs, OpRefers, Look, Send, PushWaiting, Pop, Finish, Leave;
    assert OpRefers(g.ops[i], g.conns) by { OpIsReferred(g, i); }
    OpReferences(g.ops[i], g.conns);
    match g.ops[i]
    case Arriving(user, _) => StoreRefers(g, user);
    case Leaving(user, h, hand, why, stage) => LeaveMovesSound(g, i, user, h, hand, why, stage, choice);
    case Entering(_, _, _, _) =>
    case _ => AdvanceIsQuiet(g, i, choice);
  }

  lemma NewHolderSound(g: Gateway, i: nat, choice: Choice)
    requires Refs(g) && i < |g.ops|
    ensures |AdvanceOp(g, i, choice).conns| > |g.conns| ==>
              |AdvanceOp(g, i, choice).conns| == |g.conns| + 1 && Sound(AdvanceOp(g, i, choice), |g.conns|)
  {
    hide Refs, OpRefers, Look, Send, PushWaiting, Pop, Fate, Closers;
    assert OpRefers(g.ops[i], g.conns) by { OpIsReferred(g, i); }
    OpReferences(g.ops[i], g.conns);
    if g.ops[i].Arriving? {
      StoreRefers(g, g.ops[i].user);
    } else if g.ops[i].Entering? {
      NobodyCloses(g.ops, g.conns, |g.conns|) by {
        forall j | 0 <= j < |g.ops| ensures OpRefers(g.ops[j], g.conns) { OpIsReferred(g, j); }
      }
      ClosersUpdate(g.ops, i, Admitting(g.ops[i].user), |g.conns|);
    } else if !g.ops[i].Leaving? {
      AdvanceIsQuiet(g, i, choice);
    }
  }

  lemma AdvanceKeepsSound(g: Gateway, i: nat, choice: Choice)
    requires Refs(g) && i < |g.ops| && AllSound(g)
    ensures AllSound(AdvanceOp(g, i, choice))
  {
    hide Refs, AdvanceOp, Sound, OpSound, HolderStep;
    var g' := AdvanceOp(g, i, choice);
    MovedOpSound(g, i, choice);
    NewHolderSound(g, i, choice);
    OthersStay(g, i, choice);
    forall h | 0 <= h < |g.conns| ensures HolderStep(g, g', i, h) && h < |g'.conns| && Sound(g', h) {
      AdvanceSteps(g, i, choice, h);
      StepFacts(g, g', i, h);
      HolderKept(g, g', i, h);
    }
    forall j | 0 <= j < |g'.ops| ensures OpSound(g'.ops[j], g'.conns) {
      if j != i { OtherOpSound(g, g', i, j); }
    }
  }

  lemma OthersStay(g: Gateway, i: nat, choice: Choice)
    requires Refs(g) && i < |g.ops|
    ensures var g' := AdvanceOp(g, i, choice);
            && |g'.ops| == |g.ops| && |g.conns| <= |g'.conns|
            && forall j | 0 <= j < |g.ops| && j != i :: g'.ops[j] == g.ops[j]
  {
    hide Refs, AdvanceOp, OpRefers;
    AdvanceKeepsRefs(g, i, choice);
  }

  lemma StepFacts(g: Gateway, g': Gateway, i: nat, h: nat)
    requires i < |g.ops| && h < |g.conns| && HolderStep(g, g', i, h)
    ensures h < |g'.conns| && |g'.ops| == |g.ops|
  {
  }

  lemma OtherOpSound(g: Gateway, g': Gateway, i: nat, j: nat)
    requires i < |g.ops| && j < |g.ops| == |g'.ops| && j != i && OpSound(g.ops[j], g.conns)
    requires g'.ops[j] == g.ops[j]
    requires forall h | 0 <= h < |g.conns| :: HolderStep(g, g', i, h)
    ensures OpSound(g'.ops[j], g'.conns)
  {
    if g.ops[j].Leaving? && (g.ops[j].stage.Draining? || g.ops[j].stage.Sealing?) {
      assert HolderStep(g, g', i, g.ops[j].h);
    }
  }

  /** Neither a new operation nor a writer closes anything. */
  lemma CalmKeepsSound(g: Gateway, g': Gateway)
    requires AllSound(g) && g'.store == g.store && |g'.conns| == |g.conns|
    requires forall h | 0 <= h < |g.conns| :: SameFlags(g.conns[h], g'.conns[h])
    requires g'.ops == g.ops || exists op: Op :: !op.Leaving? && g'.ops == g.ops + [op]
    ensures AllSound(g')
  {
    hide Closers;
    if g'.ops != g.ops {
      var op: Op :| !op.Leaving? && g'.ops == g.ops + [op];
      forall h | 0 <= h < |g.conns| ensures Sound(g', h) {
        ClosersAppend(g.ops, op, h);
        assert Sound(g, h);
        LongerSound(g, g', h);
      }
    } else {
      forall h | 0 <= h < |g.conns| ensures Sound(g', h) { assert Sound(g, h); }
    }
  }

  lemma LongerSound(g: Gateway, g': Gateway, h: nat)
    requires h < |g.conns| == |g'.conns| && Sound(g, h) && g'.store == g.store && SameFlags(g.conns[h], g'.conns[h])
    requires |g.ops| <= |g'.ops| && g.ops == g'.ops[..|g.ops|] && Closers(g'.ops, h) == Closers(g.ops, h)
    ensures Sound(g', h)
  {
    hide Closers, Past;
    if Stored(g', h) && !g'.conns[h].closeOpen {
      var i :| 0 <= i < |g.ops| && Past(g.ops[i], h);
      assert g'.ops[i] == g.ops[i];
    }
  }

  lemma StartKeepsSound(g: Gateway, g': Gateway, op: Op)
    requires AllSound(g) && g'.store == g.store && g'.conns == g.conns && g'.ops == g.ops + [op] && !op.Leaving?
    ensures AllSound(g')
  {
    hide AllSound;
    CalmKeepsSound(g, g');
  }

  lemma WriterKeepsSound(g: Gateway, a: Action)
    requires AllSound(g) && Refs(g) && !g.crashed && (a.Receive? || a.Uncount? || a.Quit? || a.Write?)
    ensures AllSound(Step(g, a))
  {
    hide AllSound, Fate, Refs;
    CalmKeepsSound(g, Step(g, a));
  }

  lemma StepKeepsSound(g: Gateway, a: Action)
    requires Refs(g) && AllSound(g)
    ensures AllSound(Step(g, a))
  {
    hide AllSound, AdvanceOp, Refs, ReceiveOne, UncountOne, WriteOne, Opened;
    if !g.crashed {
      match a
      case DoOpen(msg, marshals) =>
        if marshals {
          StartKeepsSound(g, Step(g, a), Dispatching(msg.body, msg.targets));
        } else {
          CalmKeepsSound(g, Step(g, a));
        }
      case DoRetry(user) => if user in g.waitSet { StartKeepsSound(g, Step(g, a), Popping(user)); }
      case DoPing(user) => StartKeepsSound(g, Step(g, a), Looking(user, Ping, FromPing));
      case DoRemove(user) => StartKeepsSound(g, Step(g, a), Arriving(user, Removal));
      case DoConnect(user, buffer) => StartKeepsSound(g, Step(g, a), Arriving(user, Replacement(buffer)));
      case Advance(i, choice) => if i < |g.ops| { AdvanceKeepsSound(g, i, choice); }
      case Receive(_) => WriterKeepsSound(g, a);
      case Uncount(_) => WriterKeepsSound(g, a);
      case Quit(_) => WriterKeepsSound(g, a);
      case Write(_, _) => WriterKeepsSound(g, a);
    }
  }

  lemma {:induction false} RunIsSound(actions: seq<Action>)
    ensures AllSound(Run(actions))
  {
    hide Step, AllSound, Refs;
    if actions == [] {
      IdleIsSound();
    } else {
      RunIsSound(actions[..|actions| - 1]);
      StepKeepsSound(Run(actions[..|actions| - 1]), actions[|actions| - 1]);
    }
  }

  lemma IdleIsSound()
    ensures AllSound(IDLE)
  {
  }

  /** In every run a holder that users can still find has both channels open, unless a removal
      or reconnect has closed it and is still busy with it; and no send channel is closed
      before its close channel. */
  lemma OpenUnlessLeaving(actions: seq<Action>, user: int64)
    requires user in Run(actions).store
    ensures var g := Run(actions);
            && g.store[user] < |g.conns|
            && var c := g.conns[g.store[user]];
               && (c.closeOpen ==> c.sendOpen)
               && (!c.closeOpen ==> exists i :: 0 <= i < |g.ops| && Past(g.ops[i], g.store[user]))
  {
    hide Run, Closers, Past;
    RunIsSound(actions);
    StoreRefers(Run(actions), user);
    assert Sound(Run(actions), Run(actions).store[user]);
  }

  /** In every run a closed holder has been loaded by a removal or reconnect, so that only
      these cause panics; and one that is about to close an already closed holder is at least
      the second to have loaded it. */
  lemma ClosersAreCounted(actions: seq<Action>, h: nat)
    requires h < |Run(actions).conns|
    ensures var g := Run(actions);
            && (!g.conns[h].closeOpen || !g.conns[h].sendOpen ==> g.conns[h].leavers >= 1)
            && (forall i | 0 <= i < |g.ops| && g.ops[i].Leaving? && g.ops[i].h == h && g.ops[i].stage.Closing? ::
                  g.conns[h].closeOpen || g.conns[h].leavers >= 2)
  {
    hide Run, Closers;
    var g := Run(actions);
    RunIsSound(actions);
    assert Sound(g, h);
    forall i | 0 <= i < |g.ops| && g.ops[i].Leaving? && g.ops[i].h == h && g.ops[i].stage.Closing?
      ensures g.conns[h].closeOpen || g.conns[h].leavers >= 2
    {
      ClosersAtLeast(g.ops, i, h);
    }
  }

  // ---------- The connection count ----------

  /** What an operation in between its two changes adds to the count: a removal forgets a holder
      before it discounts it, a reconnect after; a new holder is stored before it is counted. */
  function Lag(op: Op): int {
    if op.Admitting? || (op.Leaving? && op.why.Replacement? && op.stage.Forgetting?) then -1
    else if op.Leaving? && op.why.Removal? && op.stage.Discounting? then 1
    else 0
  }

  function LagSum(ops: seq<Op>): int {
    if ops == [] then 0 else LagSum(ops[..|ops| - 1]) + Lag(ops[|ops| - 1])
  }

  /** By how much an action moves the count away from the number of stored holders: forgetting
      a user who is gone already, or storing one who is there already. */
  ghost function Drift(g: Gateway, a: Action): int {
    if g.crashed || !a.Advance? || a.op >= |g.ops| then 0
    else
      var op := g.ops[a.op];
      if op.Leaving? && op.stage.Forgetting? && op.user !in g.store then -1
      else if op.Entering? && op.user in g.store then 1
      else 0
  }

  ghost function RunDrift(actions: seq<Action>): int {
    if actions == [] then 0
    else RunDrift(actions[..|actions| - 1]) + Drift(Run(actions[..|actions| - 1]), actions[|actions| - 1])
  }

  lemma MapSizes(m: map<int64, nat>, k: int64, v: nat)
    ensures |m - {k}| == if k in m then |m| - 1 else |m|
    ensures |m[k := v]| == if k in m then |m| else |m| + 1
  {
    assert (m - {k}).Keys == m.Keys - {k};
    assert m[k := v].Keys == m.Keys + {k};
  }

  lemma {:induction false} LagSumUpdate(ops: seq<Op>, i: nat, op: Op)
    requires i < |ops|
    ensures LagSum(ops[i := op]) + Lag(ops[i]) == LagSum(ops) + Lag(op)
  {
    hide Lag;
    var last := |ops| - 1;
    if i == last {
      assert ops[i := op][..last] == ops[..last];
    } else {
      assert ops[i := op][..last] == ops[..last][i := op];
      LagSumUpdate(ops[..last], i, op);
    }
  }

  lemma LagSumAppend(ops: seq<Op>, op: Op)
    ensures LagSum(ops + [op]) == LagSum(ops) + Lag(op)
  {
    hide Lag;
    assert (ops + [op])[..|ops|] == ops;
  }

  predicate LagsBy(g: Gateway, g': Gateway, i: nat, lag: int)
    requires i < |g.ops|
  {
    |g'.ops| == |g.ops| && Lag(g'.ops[i]) == lag
  }

  lemma DrainLags(g: Gateway, i: nat, user: int64, h: nat, hand: seq<Request>, why: Why)
    requires i < |g.ops| && h < |g.conns|
    ensures LagsBy(g, Close(g, i, user, h, why), i, 0)
    ensures LagsBy(g, DrainOne(g, i, user, h, hand, why), i, 0)
    ensures LagsBy(g, Seal(g, i, user, h, hand, why), i, 0)
  {
  }

  lemma HandBackLags(g: Gateway, i: nat, user: int64, h: nat, hand: seq<Request>, choice: Choice)
    requires i < |g.ops|
    ensures LagsBy(g, HandBackOne(g, i, user, h, hand, Removal, choice), i, 0)
  {
    hide Fate;
  }

  lemma ForgetLags(g: Gateway, i: nat, user: int64, h: nat, hand: seq<Request>, why: Why)
    requires i < |g.ops|
    ensures LagsBy(g, Forget(g, i, user, h, hand, why), i, if why.Removal? then 1 else 0)
    ensures LagsBy(g, Discount(g, i, user, h, hand, why), i, if why.Removal? then 0 else -1)
  {
  }

  lemma LeaveLags(g: Gateway, i: nat, user: int64, h: nat, hand: seq<Request>, why: Why, stage: Stage, choice: Choice)
    requires i < |g.ops| && g.ops[i] == Leaving(user, h, hand, why, stage) && OpRefers(g.ops[i], g.conns)
    ensures LagsBy(g, Leave(g, i, user, h, hand, why, stage, choice), i,
                   if stage.Forgetting? && why.Removal? then 1 else if stage.Discounting? && why.Replacement? then -1 else 0)
  {
    hide Close, DrainOne, Seal, HandBackOne, Forget, Discount;
    match stage
    case Uncounting =>
    case HandingBack => HandBackLags(g, i, user, h, hand, choice);
    case Forgetting => ForgetLags(g, i, user, h, hand, why);
    case Discounting => ForgetLags(g, i, user, h, hand, why);
    case _ => DrainLags(g, i, user, h, hand, why);
  }

  lemma AdvanceLags(g: Gateway, i: nat, choice: Choice)
    requires Refs(g) && i < |g.ops|
    ensures var op := g.ops[i];
            LagsBy(g, AdvanceOp(g, i, choice), i,
                   if op.Entering? then -1
                   else if op.Leaving? && op.stage.Forgetting? && op.why.Removal? then 1
                   else if op.Leaving? && op.stage.Discounting? && op.why.Replacement? then -1
                   else 0)
  {
    hide Refs, OpRefers, Look, Send, PushWaiting, Pop, Finish, Leave;
    assert OpRefers(g.ops[i], g.conns) by { OpIsReferred(g, i); }
    OpReferences(g.ops[i], g.conns);
    match g.ops[i]
    case Arriving(user, _) => StoreRefers(g, user);
    case Leaving(user, h, hand, why, stage) => LeaveLags(g, i, user, h, hand, why, stage, choice);
    case Entering(_, _, _, _) =>
    case _ => AdvanceIsQuiet(g, i, choice);
  }

  lemma AdvanceDrifts(g: Gateway, i: nat, choice: Choice)
    requires Refs(g) && !g.crashed && i < |g.ops|
    ensures var g' := AdvanceOp(g, i, choice);
            g'.connCount - |g'.store| - LagSum(g'.ops) == g.connCount - |g.store| - LagSum(g.ops) + Drift(g, Advance(i, choice))
  {
    hide AdvanceOp, Refs, LagSum;
    var g', op := AdvanceOp(g, i, choice), g.ops[i];
    StoreChanges(g, i, choice);
    AdvanceLags(g, i, choice);
    OthersStay(g, i, choice);
    assert g'.ops == g.ops[i := g'.ops[i]];
    LagSumUpdate(g.ops, i, g'.ops[i]);
    if op.Leaving? || op.Entering? { MapSizes(g.store, op.user, |g.conns|); }
  }

  /** Other actions start at most an operation that has changed nothing yet. */
  lemma OthersLag(g: Gateway, a: Action)
    requires Refs(g) && (g.crashed || !a.Advance? || a.op >= |g.ops|)
    ensures LagSum(Step(g, a).ops) == LagSum(g.ops)
  {
    hide AdvanceOp, Refs, LagSum, Fate, Opened;
    match a
    case DoOpen(msg, _) => LagSumAppend(g.ops, Dispatching(msg.body, msg.targets));
    case DoRetry(user) => LagSumAppend(g.ops, Popping(user));
    case DoPing(user) => LagSumAppend(g.ops, Looking(user, Ping, FromPing));
    case DoRemove(user) => LagSumAppend(g.ops, Arriving(user, Removal));
    case DoConnect(user, buffer) => LagSumAppend(g.ops, Arriving(user, Replacement(buffer)));
    case _ =>
  }

  lemma StepDrifts(g: Gateway, a: Action)
    requires Refs(g)
    ensures var g' := Step(g, a);
            g'.connCount - |g'.store| - LagSum(g'.ops) == g.connCount - |g.store| - LagSum(g.ops) + Drift(g, a)
  {
    hide Step, AdvanceOp, Refs, LagSum;
    OthersAreSame(g, a);
    if !g.crashed && a.Advance? && a.op < |g.ops| {
      AdvanceDrifts(g, a.op, a.choice);
    } else {
      OthersLag(g, a);
    }
  }

  /** In every run the connection count, but for operations in between their two changes,
      exceeds the number of stored holders by the number of connects that found their user
      stored again, less the number of removals and reconnects that found theirs gone. */
  lemma {:induction false} CountDriftsExactly(actions: seq<Action>)
    ensures Run(actions).connCount == |Run(actions).store| + LagSum(Run(actions).ops) + RunDrift(actions)
  {
    hide Step, Refs, Drift, LagSum;
    if actions == [] {
      IdleHasNoLag();
    } else {
      CountDriftsExactly(actions[..|actions| - 1]);
      StepDrifts(Run(actions[..|actions| - 1]), actions[|actions| - 1]);
    }
  }

  lemma IdleHasNoLag()
    ensures IDLE.connCount == |IDLE.store| + LagSum(IDLE.ops)
  {
  }
}
