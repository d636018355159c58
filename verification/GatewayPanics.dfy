/** When a gateway's process panics: sends on channels that a removal or reconnect has closed,
    over every run of GatewaySpec's actions. */
module GatewayPanics {
  import opened GoInt
  import opened GatewaySpec
  import opened GatewayOverlap

  // ---------- When a send channel is closed ----------

  /** Closes the holder's send channel, or finds it closed. */
  ghost predicate Seals(g: Gateway, a: Action, h: nat) {
    && !g.crashed && a.Advance? && a.op < |g.ops|
    && g.ops[a.op].Leaving? && g.ops[a.op].h == h && g.ops[a.op].stage.Sealing?
  }

  /** Sends on the holder. */
  ghost predicate SendsOn(g: Gateway, a: Action, h: nat) {
    a.Advance? && a.op < |g.ops| && g.ops[a.op].Sending? && g.ops[a.op].h == h
  }

  ghost predicate SealsAt(actions: seq<Action>, k: nat, h: nat)
    requires k < |actions|
  {
    Seals(Run(actions[..k]), actions[k], h)
  }

  ghost predicate SendsAt(actions: seq<Action>, k: nat, h: nat)
    requires k < |actions|
  {
    SendsOn(Run(actions[..k]), actions[k], h)
  }

  predicate SealedBy(c: Conn, c': Conn, seals: bool) {
    c'.sendOpen == (c.sendOpen && !seals)
  }

  lemma DrainSeals(g: Gateway, i: nat, user: int64, l: nat, hand: seq<Request>, why: Why, h: nat)
    requires i < |g.ops| && l < |g.conns| && h < |g.conns|
    ensures |Close(g, i, user, l, why).conns| == |g.conns| && SealedBy(g.conns[h], Close(g, i, user, l, why).conns[h], false)
    ensures |DrainOne(g, i, user, l, hand, why).conns| == |g.conns|
    ensures SealedBy(g.conns[h], DrainOne(g, i, user, l, hand, why).conns[h], false)
    ensures |Seal(g, i, user, l, hand, why).conns| == |g.conns|
    ensures SealedBy(g.conns[h], Seal(g, i, user, l, hand, why).conns[h], l == h)
  {
  }

  lemma HandBackSeals(g: Gateway, i: nat, user: int64, l: nat, hand: seq<Request>, why: Why, choice: Choice)
    requires i < |g.ops|
    ensures HandBackOne(g, i, user, l, hand, why, choice).conns == g.conns
    ensures Forget(g, i, user, l, hand, why).conns == g.conns && Discount(g, i, user, l, hand, why).conns == g.conns
  {
    hide Fate;
  }

  lemma LeaveSeals(g: Gateway, i: nat, user: int64, l: nat, hand: seq<Request>, why: Why, stage: Stage, choice: Choice, h: nat)
    requires i < |g.ops| && l < |g.conns| && h < |g.conns|
    ensures var conns := Leave(g, i, user, l, hand, why, stage, choice).conns;
            |conns| == |g.conns| && SealedBy(g.conns[h], conns[h], stage.Sealing? && l == h)
  {
    hide Close, DrainOne, Seal, HandBackOne, Forget, Discount;
    DrainSeals(g, i, user, l, hand, why, h);
    HandBackSeals(g, i, user, l, hand, why, choice);
  }

  /** A holder's send channel changes only by being sealed, and a new one is open. */
  lemma AdvanceSeals(g: Gateway, i: nat, choice: Choice)
    requires Refs(g) && !g.crashed && i < |g.ops|
    ensures var g' := AdvanceOp(g, i, choice);
            && |g.conns| <= |g'.conns|
            && (forall h: nat | h < |g.conns| :: SealedBy(g.conns[h], g'.conns[h], Seals(g, Advance(i, choice), h)))
            && (forall h: nat | |g.conns| <= h < |g'.conns| :: g'.conns[h].sendOpen)
  {
    hide Refs, OpRefers, Look, Send, PushWaiting, Pop, Finish, Leave;
    assert OpRefers(g.ops[i], g.conns) by { OpIsReferred(g, i); }
    OpReferences(g.ops[i], g.conns);
    match g.ops[i]
    case Arriving(user, _) => StoreRefers(g, user);
    case Leaving(user, l, hand, why, stage) =>
      forall h: nat | h < |g.conns|
        ensures |AdvanceOp(g, i, choice).conns| == |g.conns|
        ensures SealedBy(g.conns[h], AdvanceOp(g, i, choice).conns[h], Seals(g, Advance(i, choice), h))
      {
        LeaveSeals(g, i, user, l, hand, why, stage, choice, h);
      }
    case Entering(_, _, _, _) =>
    case _ => AdvanceIsQuiet(g, i, choice);
  }

  lemma StepSeals(g: Gateway, a: Action)
    requires Refs(g)
    ensures var g' := Step(g, a);
            && |g.conns| <= |g'.conns|
            && (forall h: nat | h < |g.conns| :: SealedBy(g.conns[h], g'.conns[h], Seals(g, a, h)))
            && (forall h: nat | |g.conns| <= h < |g'.conns| :: g'.conns[h].sendOpen)
  {
    hide Refs, AdvanceOp, Fate, Opened;
    if !g.crashed && a.Advance? && a.op < |g.ops| { AdvanceSeals(g, a.op, a.choice); }
  }

  lemma SealsWhatExists(g: Gateway, a: Action, h: nat)
    requires Refs(g) && Seals(g, a, h)
    ensures h < |g.conns|
  {
    OpIsReferred(g, a.op);
    OpReferences(g.ops[a.op], g.conns);
  }

  lemma LongerSeals(actions: seq<Action>, k: nat, h: nat)
    requires k < |actions| - 1
    ensures SealsAt(actions, k, h) <==> SealsAt(actions[..|actions| - 1], k, h)
  {
    hide Run, Seals;
    assert actions[..|actions| - 1][..k] == actions[..k];
  }

  /** A send channel is closed exactly if some action has sealed it. */
  lemma {:induction false} SealedExactly(actions: seq<Action>, h: nat)
    ensures h < |Run(actions).conns| && !Run(actions).conns[h].sendOpen
            <==> exists k :: 0 <= k < |actions| && SealsAt(actions, k, h)
  {
    hide Step, Seals, Refs;
    if actions == [] {
      IdleHasNoConns();
    } else {
      var n := |actions| - 1;
      var g := Run(actions[..n]);
      SealedExactly(actions[..n], h);
      StepSeals(g, actions[n]);
      assert SealsAt(actions, n, h) <==> Seals(g, actions[n], h);
      if Seals(g, actions[n], h) { SealsWhatExists(g, actions[n], h); }
      hide SealsAt;
      forall k: nat | k < n ensures SealsAt(actions, k, h) <==> SealsAt(actions[..n], k, h) {
        LongerSeals(actions, k, h);
      }
    }
  }

  lemma IdleHasNoConns()
    ensures Run([]).conns == []
  {
  }

  // ---------- When a send finds it closed ----------

  ghost predicate PanicsAt(actions: seq<Action>, k: nat)
    requires k < |actions|
  {
    Panics(Run(actions[..k]), actions[k])
  }

  lemma LongerPanics(actions: seq<Action>, k: nat)
    requires k < |actions| - 1
    ensures PanicsAt(actions, k) <==> PanicsAt(actions[..|actions| - 1], k)
  {
    hide Run, Panics;
    assert actions[..|actions| - 1][..k] == actions[..k];
  }

  lemma {:induction false} CrashesWhenSent(actions: seq<Action>)
    ensures Run(actions).crashed <==> exists k :: 0 <= k < |actions| && PanicsAt(actions, k)
  {
    hide Step, Panics, Refs;
    if actions != [] {
      var n := |actions| - 1;
      CrashesWhenSent(actions[..n]);
      CrashesExactly(Run(actions[..n]), actions[n]);
      assert PanicsAt(actions, n) <==> Panics(Run(actions[..n]), actions[n]);
      hide PanicsAt;
      forall k: nat | k < n ensures PanicsAt(actions, k) <==> PanicsAt(actions[..n], k) {
        LongerPanics(actions, k);
      }
    }
  }

  lemma PanicsMeansSealed(actions: seq<Action>, k: nat)
    requires k < |actions|
    ensures PanicsAt(actions, k) <==>
            exists h :: SendsAt(actions, k, h) && exists s :: 0 <= s < k && SealsAt(actions[..k], s, h)
  {
    hide Run, SealsAt;
    var g, a := Run(actions[..k]), actions[k];
    if a.Advance? && a.op < |g.ops| && g.ops[a.op].Sending? {
      var h := g.ops[a.op].h;
      OpIsReferred(g, a.op);
      OpReferences(g.ops[a.op], g.conns);
      SealedExactly(actions[..k], h);
      assert SendsAt(actions, k, h);
    }
  }

  lemma SealedEarlier(actions: seq<Action>, k: nat, s: nat, h: nat)
    requires s < k < |actions|
    ensures SealsAt(actions[..k], s, h) <==> SealsAt(actions, s, h)
  {
    hide Run, Seals;
    assert actions[..k][..s] == actions[..s];
  }

  /** The process has panicked if and only if an operation sent on a holder whose send channel
      a removal or reconnect had closed before, whether the operation found the holder before
      that or after. */
  lemma RunPanicsExactly(actions: seq<Action>)
    ensures Run(actions).crashed <==>
            exists s, k, h :: 0 <= s < k < |actions| && SealsAt(actions, s, h) && SendsAt(actions, k, h)
  {
    hide Run, SealsAt, SendsAt, PanicsAt;
    CrashesWhenSent(actions);
    if Run(actions).crashed {
      var k :| 0 <= k < |actions| && PanicsAt(actions, k);
      PanicsMeansSealed(actions, k);
      var h :| SendsAt(actions, k, h) && exists s :: 0 <= s < k && SealsAt(actions[..k], s, h);
      var s :| 0 <= s < k && SealsAt(actions[..k], s, h);
      SealedEarlier(actions, k, s, h);
    }
    forall s: nat, k: nat, h: nat | s < k < |actions| && SealsAt(actions, s, h) && SendsAt(actions, k, h)
      ensures PanicsAt(actions, k)
    {
      SealedEarlier(actions, k, s, h);
      PanicsMeansSealed(actions, k);
    }
  }

  /** A holder can still be found when its send channel is closed; whoever finds it then
      panics at its next action. */
  lemma LateSenderPanics(g: Gateway, i: nat, c: Choice, c': Choice)
    requires Refs(g) && !g.crashed && i < |g.ops| && g.ops[i].Looking? && g.ops[i].user in g.store
    requires g.store[g.ops[i].user] < |g.conns| && !g.conns[g.store[g.ops[i].user]].sendOpen
    ensures var g1 := Step(g, Advance(i, c)); Refs(g1) && Step(g1, Advance(i, c')).crashed
  {
    hide Refs;
    var op, g1 := g.ops[i], Step(g, Advance(i, c));
    StepKeepsRefs(g, Advance(i, c));
    assert g1 == Become(g, i, Sending(op.user, op.r, g.store[op.user], op.from));
    CrashesExactly(g1, Advance(i, c'));
  }
}
