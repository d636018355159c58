/** What operations do to the channels of a gateway's connections (GatewaySpec). */
module GatewayChannels {
  import opened GoInt
  import opened GatewaySpec
  import opened Wrappers

  /** The receiving history, the channel and the writer of a holder. */
  predicate SameTrack(c: Conn, c': Conn) {
    c'.received == c.received && c'.queue == c.queue && c'.writer == c.writer && c'.user == c.user
  }

  /** The channel after operation `op` has advanced. */
  function QueueAfter(op: Op, c: Conn, h: nat): seq<Request> {
    if op.Sending? && op.h == h && c.sendOpen && |c.queue| < c.capacity then c.queue + [op.r]
    else if op.Leaving? && op.h == h && op.stage.Draining? && c.queue != [] then c.queue[1..]
    else c.queue
  }

  /** What the action does to the holder's channel is what `QueueAfter` says. */
  predicate Tracks(g: Gateway, g': Gateway, op: Op, h: nat)
    requires h < |g.conns|
  {
    && h < |g'.conns| && g'.conns[h].user == g.conns[h].user
    && g'.conns[h].received == g.conns[h].received && g'.conns[h].writer == g.conns[h].writer
    && g'.conns[h].queue == QueueAfter(op, g.conns[h], h)
  }

  ghost predicate TracksKept(g: Gateway, g': Gateway) {
    |g'.conns| == |g.conns| && forall h | 0 <= h < |g.conns| :: SameTrack(g.conns[h], g'.conns[h])
  }

  lemma PopKeepsTracks(g: Gateway, i: nat, user: int64, choice: Choice)
    requires i < |g.ops|
    ensures TracksKept(g, Pop(g, i, user, choice))
  {
    hide Fate;
  }

  lemma PushKeepsTracks(g: Gateway, i: nat, user: int64, r: Request, from: From, choice: Choice)
    requires i < |g.ops|
    ensures TracksKept(g, PushWaiting(g, i, user, r, from, choice))
    ensures TracksKept(g, Finish(Become(g, i, Back(from)), user, r, choice.Works?))
  {
    hide Fate;
  }

  lemma LookKeepsTracks(g: Gateway, i: nat, user: int64, r: Request, from: From)
    requires i < |g.ops|
    ensures TracksKept(g, Look(g, i, user, r, from))
  {
  }

  lemma ArriveKeepsTracks(g: Gateway, i: nat, user: int64, why: Why)
    requires i < |g.ops| && (user in g.store ==> g.store[user] < |g.conns|)
    ensures TracksKept(g, Arrive(g, i, user, why))
  {
  }

  lemma CloseKeepsTracks(g: Gateway, i: nat, user: int64, h: nat, hand: seq<Request>, why: Why)
    requires i < |g.ops| && h < |g.conns|
    ensures TracksKept(g, Close(g, i, user, h, why)) && TracksKept(g, Seal(g, i, user, h, hand, why))
  {
  }

  lemma HandBackKeepsTracks(g: Gateway, i: nat, user: int64, h: nat, hand: seq<Request>, why: Why, choice: Choice)
    requires i < |g.ops|
    ensures TracksKept(g, HandBackOne(g, i, user, h, hand, why, choice))
  {
    hide Fate;
  }

  lemma SendTracks(g: Gateway, i: nat, user: int64, r: Request, l: nat, from: From, choice: Choice, h: nat)
    requires i < |g.ops| && l < |g.conns| && h < |g.conns|
    ensures Tracks(g, Send(g, i, user, r, l, from, choice), Sending(user, r, l, from), h)
  {
  }

  lemma DrainTracks(g: Gateway, i: nat, user: int64, l: nat, hand: seq<Request>, why: Why, h: nat)
    requires i < |g.ops| && l < |g.conns| && h < |g.conns|
    ensures Tracks(g, DrainOne(g, i, user, l, hand, why), Leaving(user, l, hand, why, Draining), h)
  {
  }

  lemma UncountTracks(g: Gateway, i: nat, user: int64, h: nat, hand: seq<Request>, why: Why)
    requires i < |g.ops|
    ensures TracksKept(g, Become(g.(totalPending := g.totalPending - |hand|), i, Leaving(user, h, hand, why, HandingBack)))
  {
  }

  lemma KeptTracks(g: Gateway, g': Gateway, op: Op, h: nat)
    requires h < |g.conns| && TracksKept(g, g') && !op.Sending? && !(op.Leaving? && op.stage.Draining?)
    ensures Tracks(g, g', op, h)
  {
  }

  lemma LeaveTracks(g: Gateway, i: nat, user: int64, l: nat, hand: seq<Request>, why: Why, stage: Stage, choice: Choice, h: nat)
    requires i < |g.ops| && l < |g.conns| && h < |g.conns|
    ensures Tracks(g, Leave(g, i, user, l, hand, why, stage, choice), Leaving(user, l, hand, why, stage), h)
  {
    hide TracksKept, Become, Close, DrainOne, Seal, HandBackOne, Forget, Discount;
    match stage
    case Draining => DrainTracks(g, i, user, l, hand, why, h);
    case _ =>
      CloseKeepsTracks(g, i, user, l, hand, why);
      UncountTracks(g, i, user, l, hand, why);
      HandBackKeepsTracks(g, i, user, l, hand, why, choice);
      ForgetTracks(g, i, user, l, hand, why);
      KeptTracks(g, Leave(g, i, user, l, hand, why, stage, choice), Leaving(user, l, hand, why, stage), h);
  }

  /** Apart from sends and drains, operations leave channels as they are. */
  lemma AdvanceTracks(g: Gateway, i: nat, choice: Choice, h: nat)
    requires Refs(g) && i < |g.ops| && h < |g.conns|
    ensures Tracks(g, AdvanceOp(g, i, choice), g.ops[i], h)
  {
    hide Refs, OpRefers, TracksKept, QueueAfter, Look, Send, PushWaiting, Pop, Arrive, Leave, Enter, Finish, Become;
    assert OpRefers(g.ops[i], g.conns) by { OpIsReferred(g, i); }
    OpReferences(g.ops[i], g.conns);
    match g.ops[i]
    case Sending(user, r, l, from) => SendTracks(g, i, user, r, l, from, choice, h);
    case Leaving(user, l, hand, why, stage) => LeaveTracks(g, i, user, l, hand, why, stage, choice, h);
    case Entering(user, buffer, hand, prior) => EnterTracks(g, i, user, buffer, hand, prior, h);
    case _ =>
      OthersKeepTracks(g, i, choice);
      KeptTracks(g, AdvanceOp(g, i, choice), g.ops[i], h);
  }

  lemma OthersKeepTracks(g: Gateway, i: nat, choice: Choice)
    requires Refs(g) && i < |g.ops| && !g.ops[i].Sending? && !g.ops[i].Leaving? && !g.ops[i].Entering?
    ensures TracksKept(g, AdvanceOp(g, i, choice))
  {
    hide Refs, OpRefers, TracksKept, Look, PushWaiting, Pop, Arrive, Finish, Become;
    match g.ops[i]
    case Dispatching(_, _) => BecomeTracks(g, i, choice);
    case Looking(user, r, from) => LookKeepsTracks(g, i, user, r, from);
    case Counting(_, _) => BecomeTracks(g, i, choice);
    case Refused(user, r, from) => PushKeepsTracks(g, i, user, r, from, choice);
    case Listing(_, _, _) => BecomeTracks(g, i, choice);
    case Pushing(user, r, from) => PushKeepsTracks(g, i, user, r, from, choice);
    case Popping(user) => PopKeepsTracks(g, i, user, choice);
    case Measuring(_) => BecomeTracks(g, i, choice);
    case Unlisting(_) => BecomeTracks(g, i, choice);
    case Arriving(user, why) => StoreRefers(g, user); ArriveKeepsTracks(g, i, user, why);
    case Admitting(_) => BecomeTracks(g, i, choice);
    case Done => BecomeTracks(g, i, choice);
  }

  lemma BecomeTracks(g: Gateway, i: nat, choice: Choice)
    requires Refs(g) && i < |g.ops|
    requires !g.ops[i].Looking? && !g.ops[i].Sending? && !g.ops[i].Refused? && !g.ops[i].Pushing? && !g.ops[i].Popping?
    requires !g.ops[i].Arriving? && !g.ops[i].Leaving? && !g.ops[i].Entering?
    ensures TracksKept(g, AdvanceOp(g, i, choice))
  {
  }

  lemma ForgetTracks(g: Gateway, i: nat, user: int64, h: nat, hand: seq<Request>, why: Why)
    requires i < |g.ops|
    ensures TracksKept(g, Forget(g, i, user, h, hand, why)) && TracksKept(g, Discount(g, i, user, h, hand, why))
  {
  }

  lemma EnterTracks(g: Gateway, i: nat, user: int64, buffer: nat, hand: seq<Request>, prior: Option<nat>, h: nat)
    requires i < |g.ops| && (prior.Some? ==> prior.value < |g.conns|) && h < |g.conns|
    ensures Tracks(g, Enter(g, i, user, buffer, hand, prior), Entering(user, buffer, hand, prior), h)
  {
  }
}
