/** Requests that stay counted in channels nobody can be found by any more, over every run of
    GatewaySpec's actions. */
module GatewayStrays {
  import opened GoInt
  import opened GatewayChannels
  import opened GatewayOverlap
  import opened GatewayPanics
  import opened GatewaySpec
  import opened GatewayTotals
  import opened Wrappers

  // ---------- Sums over the holders ----------

  function Total(sizes: seq<nat>): nat {
    if sizes == [] then 0 else Total(sizes[..|sizes| - 1]) + sizes[|sizes| - 1]
  }

  lemma {:induction false} TotalUpdate(sizes: seq<nat>, h: nat, size: nat)
    requires h < |sizes|
    ensures Total(sizes[h := size]) + sizes[h] == Total(sizes) + size
  {
    var last := |sizes| - 1;
    if h == last {
      assert sizes[h := size][..last] == sizes[..last];
    } else {
      assert sizes[h := size][..last] == sizes[..last][h := size];
      TotalUpdate(sizes[..last], h, size);
    }
  }

  lemma TotalAppend(sizes: seq<nat>, size: nat)
    ensures Total(sizes + [size]) == Total(sizes) + size
  {
    assert (sizes + [size])[..|sizes|] == sizes;
  }

  function StoredAt(g: Gateway, h: nat): nat
    requires h < |g.conns|
  {
    if Stored(g, h) then |g.conns[h].queue| else 0
  }

  function StrayAt(g: Gateway, h: nat): nat
    requires h < |g.conns|
  {
    if Stored(g, h) then 0 else |g.conns[h].queue|
  }

  function LeftAt(g: Gateway, h: nat): nat
    requires h < |g.conns|
  {
    if g.conns[h].sendOpen then 0 else |g.conns[h].queue|
  }

  /** The requests in each channel that a user can be found by. */
  function StoredSizes(g: Gateway): (sizes: seq<nat>)
    ensures |sizes| == |g.conns| && forall h | 0 <= h < |sizes| :: sizes[h] == StoredAt(g, h)
  {
    seq(|g.conns|, h requires 0 <= h < |g.conns| => StoredAt(g, h))
  }

  /** The requests in each other channel. */
  function StraySizes(g: Gateway): (sizes: seq<nat>)
    ensures |sizes| == |g.conns| && forall h | 0 <= h < |sizes| :: sizes[h] == StrayAt(g, h)
  {
    seq(|g.conns|, h requires 0 <= h < |g.conns| => StrayAt(g, h))
  }

  /** The requests in each closed channel. */
  function LeftSizes(g: Gateway): (sizes: seq<nat>)
    ensures |sizes| == |g.conns| && forall h | 0 <= h < |sizes| :: sizes[h] == LeftAt(g, h)
  {
    seq(|g.conns|, h requires 0 <= h < |g.conns| => LeftAt(g, h))
  }

  /** The requests that writers have received and not yet uncounted. */
  function TakenSum(conns: seq<Conn>): nat {
    if conns == [] then 0 else TakenSum(conns[..|conns| - 1]) + if conns[|conns| - 1].writer.Taken? then 1 else 0
  }

  lemma {:induction false} SplitSums(conns: seq<Conn>, stored: seq<nat>, strays: seq<nat>)
    requires |stored| == |conns| == |strays|
    requires forall h | 0 <= h < |conns| :: stored[h] + strays[h] == |conns[h].queue|
    ensures QueueSum(conns) == Total(stored) + Total(strays) + TakenSum(conns)
  {
    if conns != [] {
      var n := |conns| - 1;
      SplitSums(conns[..n], stored[..n], strays[..n]);
    }
  }

  // ---------- How strays come and go ----------

  /** The holder that stops being the one its user is found by. */
  function Unstores(g: Gateway, a: Action): Option<nat> {
    if g.crashed || !a.Advance? || a.op >= |g.ops| then None
    else
      var op := g.ops[a.op];
      if ((op.Leaving? && op.stage.Forgetting?) || op.Entering?) && op.user in g.store then Some(g.store[op.user]) else None
  }

  /** The holder whose channel the action sends to, and the one it takes a request from. */
  function SendsTo(g: Gateway, a: Action): Option<nat> {
    if g.crashed || !a.Advance? || a.op >= |g.ops| || !g.ops[a.op].Sending? then None
    else
      var h := g.ops[a.op].h;
      if h < |g.conns| && g.conns[h].sendOpen && |g.conns[h].queue| < g.conns[h].capacity then Some(h) else None
  }

  function TakesFrom(g: Gateway, a: Action): Option<nat> {
    if g.crashed then None
    else if a.Receive? && CanReceive(g, a.h) then Some(a.h)
    else if a.Advance? && a.op < |g.ops| && g.ops[a.op].Leaving? && g.ops[a.op].stage.Draining?
            && g.ops[a.op].h < |g.conns| && g.conns[g.ops[a.op].h].queue != [] then Some(g.ops[a.op].h)
    else None
  }

  /** What an action adds to the strays: all requests of a holder that is forgotten or replaced
      while it holds some, and one that is sent to a holder nobody is found by; less the ones
      that are still received or drained from there. */
  ghost function StrayGain(g: Gateway, a: Action): int
    requires Refs(g)
  {
    if Unstores(g, a).Some? then |g.conns[Unstores(g, a).value].queue|
    else if SendsTo(g, a).Some? && !Stored(g, SendsTo(g, a).value) then 1
    else if TakesFrom(g, a).Some? && !Stored(g, TakesFrom(g, a).value) then -1
    else 0
  }

  /** What an action adds to the requests in closed channels: those that the channel holds when
      it is closed; less the ones that are still received or drained from there. */
  ghost function LeftGain(g: Gateway, a: Action): int
    requires Refs(g)
  {
    if a.Advance? && a.op < |g.ops| && g.ops[a.op].Leaving? && Seals(g, a, g.ops[a.op].h) then
      var c := g.conns[g.ops[a.op].h]; if c.sendOpen then |c.queue| else 0
    else if TakesFrom(g, a).Some? && !g.conns[TakesFrom(g, a).value].sendOpen then -1
    else 0
  }

  /** The holder of which the action changes the channel or the place in the store. */
  function Touches(g: Gateway, a: Action): Option<nat> {
    if Unstores(g, a).Some? then Unstores(g, a)
    else if SendsTo(g, a).Some? then SendsTo(g, a)
    else TakesFrom(g, a)
  }

  /** The holder that the action seals or takes a request from. */
  ghost function Seized(g: Gateway, a: Action): Option<nat> {
    if a.Advance? && a.op < |g.ops| && g.ops[a.op].Leaving? && Seals(g, a, g.ops[a.op].h) then Some(g.ops[a.op].h)
    else TakesFrom(g, a)
  }

  /** One holder's share of a sum changes by `gain`, and what is added starts at nothing. */
  lemma OneChanges(sizes: seq<nat>, sizes': seq<nat>, h: Option<nat>, gain: int)
    requires |sizes| <= |sizes'| <= |sizes| + 1
    requires h.Some? ==> h.value < |sizes| && sizes'[h.value] == sizes[h.value] + gain
    requires h.None? ==> gain == 0
    requires forall k | 0 <= k < |sizes| && h != Some(k) :: sizes'[k] == sizes[k]
    requires |sizes'| > |sizes| ==> sizes'[|sizes|] == 0
    ensures Total(sizes') == Total(sizes) + gain
  {
    hide Total;
    var kept := if h.Some? then sizes[h.value := sizes'[h.value]] else sizes;
    if h.Some? { TotalUpdate(sizes, h.value, sizes'[h.value]); }
    if |sizes'| > |sizes| {
      assert sizes' == kept + [0];
      TotalAppend(kept, 0);
    } else {
      assert sizes' == kept;
    }
  }

  ghost function Share(touched: Option<nat>, h: nat, gain: int): int {
    if touched == Some(h) then gain else 0
  }

  lemma AdvanceStrayAt(g: Gateway, i: nat, choice: Choice, h: nat)
    requires Refs(g) && !g.crashed && i < |g.ops| && h < |g.conns|
    ensures var g', a := AdvanceOp(g, i, choice), Advance(i, choice);
            h < |g'.conns| && StrayAt(g', h) == StrayAt(g, h) + Share(Touches(g, a), h, StrayGain(g, a))
  {
    hide AdvanceOp, Refs, OpRefers;
    AdvanceTracks(g, i, choice, h);
    StoreChanges(g, i, choice);
    OpIsReferred(g, i);
    OpReferences(g.ops[i], g.conns);
    StoreRefers(g, g.conns[h].user);
    if g.ops[i].Leaving? || g.ops[i].Entering? { StoreRefers(g, g.ops[i].user); }
  }

  lemma AdvanceLeftAt(g: Gateway, i: nat, choice: Choice, h: nat)
    requires Refs(g) && !g.crashed && i < |g.ops| && h < |g.conns|
    ensures var g', a := AdvanceOp(g, i, choice), Advance(i, choice);
            h < |g'.conns| && LeftAt(g', h) == LeftAt(g, h) + Share(Seized(g, a), h, LeftGain(g, a))
  {
    hide AdvanceOp, Refs, OpRefers;
    AdvanceTracks(g, i, choice, h);
    AdvanceSeals(g, i, choice);
    OpIsReferred(g, i);
    OpReferences(g.ops[i], g.conns);
    assert SealedBy(g.conns[h], AdvanceOp(g, i, choice).conns[h], Seals(g, Advance(i, choice), h));
  }

  /** A new holder is stored and empty-handed, apart from what it was given. */
  lemma NewHolder(g: Gateway, i: nat, choice: Choice)
    requires Refs(g) && !g.crashed && i < |g.ops|
    ensures var g' := AdvanceOp(g, i, choice);
            && |g.conns| <= |g'.conns| <= |g.conns| + 1
            && (|g'.conns| > |g.conns| ==> StrayAt(g', |g.conns|) == 0 && LeftAt(g', |g.conns|) == 0)
  {
    hide Refs, OpRefers, Look, Send, PushWaiting, Pop, Finish, Leave;
    assert OpRefers(g.ops[i], g.conns) by { OpIsReferred(g, i); }
    OpReferences(g.ops[i], g.conns);
    match g.ops[i]
    case Arriving(user, _) => StoreRefers(g, user);
    case Leaving(user, h, hand, why, stage) => LeaveSeals(g, i, user, h, hand, why, stage, choice, h);
    case Entering(_, _, _, _) =>
    case _ => AdvanceIsQuiet(g, i, choice);
  }

  lemma TouchedExists(g: Gateway, a: Action)
    requires Refs(g)
    ensures Touches(g, a).Some? ==> Touches(g, a).value < |g.conns|
    ensures Touches(g, a).None? ==> StrayGain(g, a) == 0
    ensures Seized(g, a).Some? ==> Seized(g, a).value < |g.conns|
    ensures Seized(g, a).None? ==> LeftGain(g, a) == 0
  {
    hide OpRefers;
    if a.Advance? && a.op < |g.ops| {
      OpIsReferred(g, a.op);
      OpReferences(g.ops[a.op], g.conns);
    }
  }

  lemma AdvanceStrays(g: Gateway, i: nat, choice: Choice)
    requires Refs(g) && !g.crashed && i < |g.ops|
    ensures var g', a := AdvanceOp(g, i, choice), Advance(i, choice);
            && Total(StraySizes(g')) == Total(StraySizes(g)) + StrayGain(g, a)
            && Total(LeftSizes(g')) == Total(LeftSizes(g)) + LeftGain(g, a)
  {
    hide AdvanceOp, Refs, Total, Touches, Seized, StrayGain, LeftGain, StrayAt, LeftAt;
    var g', a := AdvanceOp(g, i, choice), Advance(i, choice);
    NewHolder(g, i, choice);
    TouchedExists(g, a);
    forall h: nat | h < |g.conns|
      ensures StrayAt(g', h) == StrayAt(g, h) + Share(Touches(g, a), h, StrayGain(g, a))
      ensures LeftAt(g', h) == LeftAt(g, h) + Share(Seized(g, a), h, LeftGain(g, a))
    {
      AdvanceStrayAt(g, i, choice, h);
      AdvanceLeftAt(g, i, choice, h);
    }
    OneChanges(StraySizes(g), StraySizes(g'), Touches(g, a), StrayGain(g, a));
    OneChanges(LeftSizes(g), LeftSizes(g'), Seized(g, a), LeftGain(g, a));
  }

  lemma WritersStray(g: Gateway, a: Action)
    requires Refs(g) && !g.crashed && !(a.Advance? && a.op < |g.ops|)
    ensures Total(StraySizes(Step(g, a))) == Total(StraySizes(g)) + StrayGain(g, a)
    ensures Total(LeftSizes(Step(g, a))) == Total(LeftSizes(g)) + LeftGain(g, a)
  {
    hide Refs, Total, Fate, Opened, AdvanceOp;
    var g' := Step(g, a);
    var h := if a.Receive? && CanReceive(g, a.h) then Some(a.h) else None;
    OneChanges(StraySizes(g), StraySizes(g'), h, StrayGain(g, a));
    OneChanges(LeftSizes(g), LeftSizes(g'), h, LeftGain(g, a));
  }

  lemma StepStrays(g: Gateway, a: Action)
    requires Refs(g)
    ensures Total(StraySizes(Step(g, a))) == Total(StraySizes(g)) + StrayGain(g, a)
    ensures Total(LeftSizes(Step(g, a))) == Total(LeftSizes(g)) + LeftGain(g, a)
  {
    hide Refs, Total, AdvanceOp, StraySizes, LeftSizes;
    if g.crashed {
    } else if a.Advance? && a.op < |g.ops| {
      AdvanceStrays(g, a.op, a.choice);
    } else {
      WritersStray(g, a);
    }
  }

  // ---------- Main results ----------

  ghost function StrayGains(actions: seq<Action>): int {
    if actions == [] then 0
    else StrayGains(actions[..|actions| - 1]) + StrayGain(Run(actions[..|actions| - 1]), actions[|actions| - 1])
  }

  ghost function LeftGains(actions: seq<Action>): int {
    if actions == [] then 0
    else LeftGains(actions[..|actions| - 1]) + LeftGain(Run(actions[..|actions| - 1]), actions[|actions| - 1])
  }

  lemma {:induction false} RunStrays(actions: seq<Action>)
    ensures Total(StraySizes(Run(actions))) == StrayGains(actions)
    ensures Total(LeftSizes(Run(actions))) == LeftGains(actions)
  {
    hide Step, Refs, StrayGain, LeftGain, StraySizes, LeftSizes;
    if actions == [] {
      IdleStrays();
    } else {
      RunStrays(actions[..|actions| - 1]);
      StepStrays(Run(actions[..|actions| - 1]), actions[|actions| - 1]);
    }
  }

  lemma IdleStrays()
    ensures Total(StraySizes(IDLE)) == 0 && Total(LeftSizes(IDLE)) == 0
  {
  }

  /** In every run totalPending is the number of requests in the channels that users can be
      found by, plus the ones in the hands of writers and operations, plus the strays; and
      there are as many strays as the actions of the run have made: they come when a holder
      loses its place in the store with requests in its channel, or when one is sent to such a
      holder, and go when they are still received or drained. */
  lemma StoredTotalsExactly(actions: seq<Action>)
    ensures var g := Run(actions);
            && g.totalPending == Total(StoredSizes(g)) + TakenSum(g.conns) + HeldSum(g.ops) + Total(StraySizes(g))
            && Total(StraySizes(g)) == StrayGains(actions)
  {
    hide Run, Total, TakenSum, QueueSum, HeldSum, StrayGains, LeftGains;
    var g := Run(actions);
    TotalsAreExact(actions);
    RunStrays(actions);
    SplitSums(g.conns, StoredSizes(g), StraySizes(g));
  }

  /** In every run the number of requests in closed channels grows exactly when a channel is
      closed with requests in it, that is, when some were sent after the last drain. */
  lemma LeftBehindExactly(actions: seq<Action>)
    ensures Total(LeftSizes(Run(actions))) == LeftGains(actions)
  {
    RunStrays(actions);
  }

  // ---------- Where the strays are ----------

  /** Open, but nobody is found by it: forgotten or replaced by an operation that loaded another
      holder or none. */
  predicate Orphaned(g: Gateway, h: nat)
    requires h < |g.conns|
  {
    g.conns[h].sendOpen && !Stored(g, h)
  }

  predicate Orphans(g: Gateway, a: Action) {
    Unstores(g, a).Some? && Unstores(g, a).value < |g.conns| && g.conns[Unstores(g, a).value].sendOpen
  }

  lemma AdvanceOrphans(g: Gateway, i: nat, choice: Choice)
    requires Refs(g) && !g.crashed && i < |g.ops| && !Orphans(g, Advance(i, choice))
    requires forall h: nat | h < |g.conns| :: !Orphaned(g, h)
    ensures var g' := AdvanceOp(g, i, choice); forall h: nat | h < |g'.conns| :: !Orphaned(g', h)
  {
    hide AdvanceOp, Refs, OpRefers;
    var g' := AdvanceOp(g, i, choice);
    StoreChanges(g, i, choice);
    AdvanceSeals(g, i, choice);
    NewIsStored(g, i, choice);
    forall h: nat | h < |g.conns| ensures !Orphaned(g', h) {
      assert !Orphaned(g, h);
      AdvanceTracks(g, i, choice, h);
      assert SealedBy(g.conns[h], g'.conns[h], Seals(g, Advance(i, choice), h));
    }
  }

  lemma NewIsStored(g: Gateway, i: nat, choice: Choice)
    requires Refs(g) && !g.crashed && i < |g.ops|
    ensures var g' := AdvanceOp(g, i, choice);
            |g'.conns| <= |g.conns| + 1 && (|g'.conns| > |g.conns| ==> Stored(g', |g.conns|))
  {
    hide Refs, OpRefers, Look, Send, PushWaiting, Pop, Finish, Leave;
    assert OpRefers(g.ops[i], g.conns) by { OpIsReferred(g, i); }
    OpReferences(g.ops[i], g.conns);
    match g.ops[i]
    case Arriving(user, _) => StoreRefers(g, user);
    case Leaving(user, h, hand, why, stage) => LeaveSeals(g, i, user, h, hand, why, stage, choice, h);
    case Entering(_, _, _, _) =>
    case _ => AdvanceIsQuiet(g, i, choice);
  }

  lemma StepOrphans(g: Gateway, a: Action)
    requires Refs(g) && !Orphans(g, a) && forall h: nat | h < |g.conns| :: !Orphaned(g, h)
    ensures var g' := Step(g, a); forall h: nat | h < |g'.conns| :: !Orphaned(g', h)
  {
    hide AdvanceOp, Refs, Fate, Opened;
    if !g.crashed && a.Advance? && a.op < |g.ops| {
      AdvanceOrphans(g, a.op, a.choice);
    } else {
      forall h: nat | h < |g.conns| ensures !Orphaned(Step(g, a), h) { assert !Orphaned(g, h); }
    }
  }

  ghost predicate NeverOrphans(actions: seq<Action>) {
    actions == []
    || (NeverOrphans(actions[..|actions| - 1]) && !Orphans(Run(actions[..|actions| - 1]), actions[|actions| - 1]))
  }

  lemma {:induction false} NobodyOrphaned(actions: seq<Action>)
    requires NeverOrphans(actions)
    ensures forall h: nat | h < |Run(actions).conns| :: !Orphaned(Run(actions), h)
  {
    hide Step, Refs, Orphans;
    if actions == [] {
      IdleStrays();
    } else {
      NobodyOrphaned(actions[..|actions| - 1]);
      StepOrphans(Run(actions[..|actions| - 1]), actions[|actions| - 1]);
    }
  }

  lemma {:induction false} TotalAtMost(sizes: seq<nat>, sizes': seq<nat>)
    requires |sizes| == |sizes'| && forall h | 0 <= h < |sizes| :: sizes[h] <= sizes'[h]
    ensures Total(sizes) <= Total(sizes')
  {
    if sizes != [] { TotalAtMost(sizes[..|sizes| - 1], sizes'[..|sizes| - 1]); }
  }

  /** As long as no open holder loses its place in the store, every stray is a request left
      behind in a channel that was closed with requests in it. */
  lemma StraysAreLeftBehind(actions: seq<Action>)
    requires NeverOrphans(actions)
    ensures var g := Run(actions);
            && (forall h: nat | h < |g.conns| && !Stored(g, h) && g.conns[h].queue != [] :: !g.conns[h].sendOpen)
            && Total(StraySizes(g)) <= Total(LeftSizes(g)) == LeftGains(actions)
  {
    hide Run, Total, NeverOrphans;
    var g := Run(actions);
    NobodyOrphaned(actions);
    RunStrays(actions);
    forall h: nat | h < |g.conns| ensures StrayAt(g, h) <= LeftAt(g, h) { assert !Orphaned(g, h); }
    TotalAtMost(StraySizes(g), LeftSizes(g));
    forall h: nat | h < |g.conns| && !Stored(g, h) && g.conns[h].queue != [] ensures !g.conns[h].sendOpen {
      assert !Orphaned(g, h);
    }
  }

  // ---------- Requests that are counted for good ----------

  /** A closed channel that nobody is found by, nobody drains and no writer receives from. */
  ghost predicate Dead(g: Gateway, h: nat) {
    && h < |g.conns| && !g.conns[h].sendOpen && g.conns[h].writer.Exited? && !Stored(g, h)
    && forall i | 0 <= i < |g.ops| :: !(g.ops[i].Leaving? && g.ops[i].h == h)
  }

  /** An operation comes to work on a holder only by finding it in the store. */
  lemma LeaverFoundIt(g: Gateway, i: nat, choice: Choice)
    requires Refs(g) && i < |g.ops|
    ensures |AdvanceOp(g, i, choice).ops| == |g.ops|
    ensures var op, op' := g.ops[i], AdvanceOp(g, i, choice).ops[i];
            op'.Leaving? ==>
              || (op.Leaving? && op'.h == op.h)
              || (op.Arriving? && op.user in g.store && op'.h == g.store[op.user])
  {
    hide Refs, OpRefers, Look, Send, PushWaiting, Pop, Finish, Leave;
    assert OpRefers(g.ops[i], g.conns) by { OpIsReferred(g, i); }
    OpReferences(g.ops[i], g.conns);
    match g.ops[i]
    case Arriving(user, _) => StoreRefers(g, user);
    case Leaving(user, h, hand, why, stage) => LeaverStays(g, i, user, h, hand, why, stage, choice);
    case Entering(_, _, _, _) =>
    case _ => AdvanceIsQuiet(g, i, choice);
  }

  lemma LeaverStays(g: Gateway, i: nat, user: int64, h: nat, hand: seq<Request>, why: Why, stage: Stage, choice: Choice)
    requires i < |g.ops| && h < |g.conns|
    ensures var g' := Leave(g, i, user, h, hand, why, stage, choice); |g'.ops| == |g.ops| && (g'.ops[i].Leaving? ==> g'.ops[i].h == h)
  {
    hide Fate;
  }

  lemma AdvanceKeepsDead(g: Gateway, i: nat, choice: Choice, h: nat)
    requires Refs(g) && !g.crashed && i < |g.ops| && Dead(g, h)
    ensures Dead(AdvanceOp(g, i, choice), h) && AdvanceOp(g, i, choice).conns[h].queue == g.conns[h].queue
  {
    hide AdvanceOp, Refs;
    var g' := AdvanceOp(g, i, choice);
    AdvanceTracks(g, i, choice, h);
    AdvanceSeals(g, i, choice);
    assert SealedBy(g.conns[h], g'.conns[h], Seals(g, Advance(i, choice), h));
    StoreChanges(g, i, choice);
    OthersStay(g, i, choice);
    LeaverFoundIt(g, i, choice);
    if g.ops[i].Arriving? { StoreRefers(g, g.ops[i].user); }
  }

  /** Whatever happens, a dead channel stays dead and keeps its requests. */
  lemma StepKeepsDead(g: Gateway, a: Action, h: nat)
    requires Refs(g) && Dead(g, h)
    ensures Dead(Step(g, a), h) && Step(g, a).conns[h].queue == g.conns[h].queue
  {
    hide AdvanceOp, Refs, Fate, Opened;
    if !g.crashed && a.Advance? && a.op < |g.ops| { AdvanceKeepsDead(g, a.op, a.choice, h); }
  }

  /** The requests of a dead channel are never received, drained or uncounted in any run. */
  lemma {:induction false} DeadForGood(before: seq<Action>, after: seq<Action>, h: nat)
    requires Dead(Run(before), h)
    ensures Dead(Run(before + after), h) && Run(before + after).conns[h].queue == Run(before).conns[h].queue
  {
    hide Run, Step, Refs, Dead;
    if after == [] {
      assert before + after == before;
    } else {
      var n := |after| - 1;
      DeadForGood(before, after[..n], h);
      RunOnce(before + after[..n], after[n]);
      assert before + after[..n] + [after[n]] == before + after;
      StepKeepsDead(Run(before + after[..n]), after[n], h);
    }
  }
}
