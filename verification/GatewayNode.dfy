/** The gateway's code over mutable holders: each piece of it between two shared accesses is one
    action of GatewaySpec's machine, and each whole operation is a sequence of its own actions
    (internal/gateway/push/manager.go, dispatcher.go, channel_redis.go). */
module GatewayNode {
  import opened GoInt
  import opened Messages
  import opened GatewaySpec
  import opened Wrappers

  datatype Outcome = Queued | NoConnection | TimedOut | Blocked | Panicked

  /** How an operation goes on after its request has been queued or not. */
  function NextOp(outcome: Outcome, user: int64, r: Request, from: From): Op
    requires outcome.Queued? || outcome.NoConnection? || outcome.TimedOut?
  {
    if outcome.Queued? then Counting(user, from)
    else match from
      case FromDispatch(_, _) => if outcome.NoConnection? then Refused(user, r, from) else Listing(user, r, from)
      case FromRetry => Pushing(user, r, from)
      case FromPing => Done
  }

  /** ConnectionHolder with its writer; `queue` is the content of `sendCh`. */
  class Holder {
    const user: int64
    const capacity: nat
    var queue: seq<Request>
    var sendOpen: bool
    var closeOpen: bool
    var writer: Writer
    ghost const index: nat
    ghost var received: seq<Request>
    ghost var leavers: nat

    constructor (user: int64, capacity: nat, ghost index: nat, ghost received: seq<Request>)
      ensures View() == Conn(user, [], capacity, true, true, Selecting, received, 0) && this.index == index
    {
      this.user, this.capacity, this.index, this.received := user, capacity, index, received;
      queue, sendOpen, closeOpen, writer, leavers := [], true, true, Selecting, 0;
    }

    /** Refills a new channel; no send blocks, for the channel has room for all requests. */
    method Refill(hand: seq<Request>)
      requires queue == [] && capacity >= |hand|
      modifies this`queue
      ensures queue == hand
    {
      for k := 0 to |hand|
        invariant queue == hand[..k]
      {
        assert |queue| < capacity;
        queue := queue + [hand[k]];
      }
    }

    ghost function View(): Conn
      reads this
    {
      Conn(user, queue, capacity, sendOpen, closeOpen, writer, received, leavers)
    }
  }

  predicate Starts(g: Gateway, a: Action, op: Op) {
    match a
    case DoRetry(user) => user in g.waitSet && op == Popping(user)
    case DoPing(user) => op == Looking(user, Ping, FromPing)
    case DoRemove(user) => op == Arriving(user, Removal)
    case DoConnect(user, buffer) => op == Arriving(user, Replacement(buffer))
    case _ => false
  }

  lemma KeysWithout<V>(m: map<int64, V>, k: int64)
    ensures (m - {k}).Keys == m.Keys - {k}
    ensures forall j | j in m && j != k :: j in m - {k} && (m - {k})[j] == m[j]
  {
  }

  class Node {
    var connStore: map<int64, Holder>
    var connCount: int
    var totalPending: int
    var waiting: map<int64, seq<Request>>
    var waitSet: set<int64>
    var table: P.Table
    var crashed: bool

    /** Every holder ever made, and the machine's view of the gateway. */
    ghost var holders: seq<Holder>
    ghost var view: Gateway

    /** The fields are what the view says. */
    ghost predicate Valid()
      reads this, holders
    {
      && |holders| == |view.conns|
      && (forall h | 0 <= h < |holders| :: holders[h].index == h && holders[h].View() == view.conns[h])
      && connStore.Keys == view.store.Keys
      && (forall u | u in connStore :: view.store[u] < |holders| && connStore[u] == holders[view.store[u]])
      && connCount == view.connCount && totalPending == view.totalPending
      && waiting == view.waiting && waitSet == view.waitSet
      && table == view.records.table && crashed == view.crashed
      && Refs(view)
    }

    /** The operation is about to take the action that `op` names. */
    ghost predicate Ready(i: nat, op: Op)
      reads this, holders
    {
      Valid() && !crashed && i < |view.ops| && view.ops[i] == op
    }

    constructor ()
      ensures Valid() && view == IDLE && holders == []
    {
      connStore, connCount, totalPending := map[], 0, 0;
      waiting, waitSet, table, crashed := map[], {}, P.Table(map[], []), false;
      holders, view := [], IDLE;
    }

    // ---------- EnqueueMessage ----------

    /** The lookup. */
    method Lookup(ghost i: nat, ghost c: Choice, user: int64, r: Request, ghost from: From) returns (holder: Holder?)
      requires Ready(i, Looking(user, r, from))
      modifies this`view
      ensures Valid() && !crashed && view == Step(old(view), Advance(i, c))
      ensures holder == if user in connStore then connStore[user] else null
      ensures holder != null ==> holder in holders && Ready(i, Sending(user, r, holder.index, from))
      ensures holder == null ==> Ready(i, NextOp(NoConnection, user, r, from))
    {
      hide Refs, Step;
      LookStep(view, i, c);
      view := Step(view, Advance(i, c));
      if user in connStore {
        holder := connStore[user];
      } else {
        holder := null;
      }
    }

    /** The select with its timeout. */
    method SendOn(ghost i: nat, user: int64, r: Request, holder: Holder, ghost from: From,
                  timesOut: bool) returns (outcome: Outcome)
      requires Ready(i, Sending(user, r, holder.index, from)) && holder in holders
      modifies this`view, this`crashed, holder`queue
      ensures Valid() && view == Step(old(view), Advance(i, if timesOut then Fails else Works))
      ensures outcome == (if !old(holder.sendOpen) then Panicked
                          else if |old(holder.queue)| < holder.capacity then Queued
                          else if timesOut then TimedOut
                          else Blocked)
      ensures crashed <==> outcome == Panicked
      ensures outcome == Queued || outcome == TimedOut ==> Ready(i, NextOp(outcome, user, r, from))
      ensures holder.queue == if outcome == Queued then old(holder.queue) + [r] else old(holder.queue)
    {
      hide Refs, Step;
      ghost var a := Advance(i, if timesOut then Fails else Works);
      SendStep(view, i, a.choice);
      view := Step(view, a);
      if !holder.sendOpen {
        crashed := true;
        outcome := Panicked;
      } else if |holder.queue| < holder.capacity {
        holder.queue := holder.queue + [r];
        outcome := Queued;
      } else {
        outcome := if timesOut then TimedOut else Blocked;
      }
    }

    /** incPending. */
    method IncPending(ghost i: nat, ghost c: Choice, ghost user: int64, ghost from: From)
      requires Ready(i, Counting(user, from))
      modifies this`view, this`totalPending
      ensures Ready(i, if from.FromRetry? then Measuring(user) else Back(from)) && view == Step(old(view), Advance(i, c))
      ensures totalPending == old(totalPending) + 1
    {
      hide Refs, Step;
      ListStep(view, i, c);
      view := Step(view, Advance(i, c));
      totalPending := totalPending + 1;
    }

    // ---------- The fates of a copy ----------

    /** SendPushBackRequest for a user without connection, and Done. */
    method PushBack(ghost i: nat, user: int64, r: Request, ghost from: From, c: Choice)
      requires Ready(i, Refused(user, r, from))
      modifies this`view, this`table
      ensures Ready(i, Back(from)) && view == Step(old(view), Advance(i, c))
      ensures table == if c.Works? && r.Push? then old(table).Report(r.msg.id, false, 1) else old(table)
    {
      hide Refs, Step, P.Table.Report;
      RefusedStep(view, i, c);
      view := Step(view, Advance(i, c));
      if c.Works? && r.Push? { table := table.Report(r.msg.id, false, 1); }
    }

    /** InsertWaitSet. */
    method InsertWaitSet(ghost i: nat, ghost c: Choice, user: int64, ghost r: Request, ghost from: From)
      requires Ready(i, Listing(user, r, from))
      modifies this`view, this`waitSet
      ensures Ready(i, Pushing(user, r, from)) && view == Step(old(view), Advance(i, c))
      ensures waitSet == old(waitSet) + {user}
    {
      hide Refs, Step;
      ListStep(view, i, c);
      view := Step(view, Advance(i, c));
      waitSet := waitSet + {user};
    }

    /** RPUSH to the user's list; the local fallback is never read. */
    method PushWait(ghost i: nat, user: int64, r: Request, ghost from: From, c: Choice)
      requires Ready(i, Pushing(user, r, from))
      modifies this`view, this`waiting
      ensures Ready(i, Back(from)) && view == Step(old(view), Advance(i, c))
      ensures waiting == if c.Works? then old(waiting)[user := Get(old(waiting), user) + [r]] else old(waiting)
    {
      hide Refs, Step, P.Table.Report;
      PushStep(view, i, c);
      view := Step(view, Advance(i, c));
      if c.Works? { waiting := waiting[user := Get(waiting, user) + [r]]; }
    }

    // ---------- ListeningWaitQueue ----------

    /** LPOP and decoding. */
    method PopWait(ghost i: nat, user: int64, c: Choice) returns (r: Option<Request>)
      requires Ready(i, Popping(user))
      modifies this`view, this`waiting
      ensures view == Step(old(view), Advance(i, c))
      ensures Ready(i, if r.Some? then Looking(user, r.value, FromRetry) else Done)
      ensures r == if !c.Works? || Get(old(waiting), user) == [] then None else Some(Get(old(waiting), user)[0])
      ensures var list := Get(old(waiting), user);
              waiting == if c.Fails? || list == [] then old(waiting) else old(waiting)[user := list[1..]]
    {
      hide Refs, Step, P.Table.Report;
      PopStep(view, i, c);
      view := Step(view, Advance(i, c));
      r := None;
      var list := Get(waiting, user);
      if !c.Fails? && list != [] {
        waiting := waiting[user := list[1..]];
        if c.Works? { r := Some(list[0]); }
      }
    }

    /** LLEN. */
    method Measure(ghost i: nat, user: int64, c: Choice) returns (drained: bool)
      requires Ready(i, Measuring(user))
      modifies this`view
      ensures view == Step(old(view), Advance(i, c))
      ensures Ready(i, if drained then Unlisting(user) else Done)
      ensures drained <==> c.Works? && Get(waiting, user) == []
    {
      hide Refs, Step;
      ListStep(view, i, c);
      view := Step(view, Advance(i, c));
      drained := c.Works? && Get(waiting, user) == [];
    }

    /** RemoveWaitSet. */
    method RemoveWaitSet(ghost i: nat, ghost c: Choice, user: int64)
      requires Ready(i, Unlisting(user))
      modifies this`view, this`waitSet
      ensures Ready(i, Done) && view == Step(old(view), Advance(i, c))
      ensures waitSet == old(waitSet) - {user}
    {
      hide Refs, Step;
      ListStep(view, i, c);
      view := Step(view, Advance(i, c));
      waitSet := waitSet - {user};
    }

    // ---------- RegisterConnection and RemoveConnection ----------

    /** The load of the holder to replace or remove. */
    method LoadOld(ghost i: nat, ghost c: Choice, user: int64, ghost why: Why) returns (holder: Holder?)
      requires Ready(i, Arriving(user, why))
      modifies this`view, holders`leavers
      ensures Valid() && !crashed && view == Step(old(view), Advance(i, c))
      ensures holder == if user in connStore then connStore[user] else null
      ensures holder != null ==>
                holder in holders && holder.index < |holders| && Ready(i, Leaving(user, holder.index, [], why, Closing))
      ensures holder == null ==> Ready(i, match why case Removal => Done
                                                     case Replacement(buffer) => Entering(user, buffer, [], None))
    {
      hide Refs, Step;
      ArriveStep(view, i, c);
      if user in connStore {
        holder := connStore[user];
        CountLoad(i, c, user, holder, why);
      } else {
        holder := null;
        view := Step(view, Advance(i, c));
      }
    }

    ghost method CountLoad(i: nat, c: Choice, user: int64, holder: Holder, why: Why)
      requires Ready(i, Arriving(user, why)) && user in connStore && connStore[user] == holder
      modifies this`view, holder`leavers
      ensures view == Step(old(view), Advance(i, c))
      ensures holder in holders && holder.index < |holders| && Ready(i, Leaving(user, holder.index, [], why, Closing))
    {
      hide Refs, Step;
      ArriveStep(view, i, c);
      view := Step(view, Advance(i, c));
      holder.leavers := holder.leavers + 1;
    }

    /** close(closeCh) under recover. */
    method CloseOld(ghost i: nat, ghost c: Choice, user: int64, holder: Holder, ghost why: Why) returns (closed: bool)
      requires Ready(i, Leaving(user, holder.index, [], why, Closing)) && holder in holders
      modifies this`view, holder`closeOpen
      ensures view == Step(old(view), Advance(i, c))
      ensures closed == old(holder.closeOpen)
      ensures Ready(i, Leaving(user, holder.index, [], why, if closed || why.Replacement? then Draining else HandingBack))
      ensures !holder.closeOpen
    {
      hide Refs, Step;
      LeaveStep(view, i, c, user, holder.index, [], why, Closing);
      view := Step(view, Advance(i, c));
      closed := holder.closeOpen;
      holder.closeOpen := false;
    }

    /** One non-blocking receive of the drain loop. */
    method Drain(ghost i: nat, ghost c: Choice, user: int64, holder: Holder, ghost hand: seq<Request>, ghost why: Why)
      returns (r: Option<Request>)
      requires Ready(i, Leaving(user, holder.index, hand, why, Draining)) && holder in holders
      modifies this`view, holder`queue
      ensures view == Step(old(view), Advance(i, c))
      ensures r == if old(holder.queue) == [] then None else Some(old(holder.queue)[0])
      ensures holder.queue == if r.None? then [] else old(holder.queue)[1..]
      ensures Ready(i, if r.None? then Leaving(user, holder.index, hand, why, Sealing)
                       else Leaving(user, holder.index, hand + [r.value], why, Draining))
    {
      hide Refs, Step;
      LeaveStep(view, i, c, user, holder.index, hand, why, Draining);
      view := Step(view, Advance(i, c));
      r := None;
      if holder.queue != [] {
        r := Some(holder.queue[0]);
        holder.queue := holder.queue[1..];
      }
    }

    /** close(sendCh) under recover. */
    method SealOld(ghost i: nat, ghost c: Choice, user: int64, holder: Holder, ghost hand: seq<Request>, ghost why: Why)
      requires Ready(i, Leaving(user, holder.index, hand, why, Sealing)) && holder in holders
      modifies this`view, holder`sendOpen
      ensures view == Step(old(view), Advance(i, c))
      ensures Ready(i, Leaving(user, holder.index, hand, why, if why.Removal? then Uncounting else Discounting))
      ensures !holder.sendOpen
    {
      hide Refs, Step;
      LeaveStep(view, i, c, user, holder.index, hand, why, Sealing);
      view := Step(view, Advance(i, c));
      holder.sendOpen := false;
    }

    /** decPending for what a removal has drained. */
    method DecPending(ghost i: nat, ghost c: Choice, user: int64, holder: Holder, hand: seq<Request>)
      requires Ready(i, Leaving(user, holder.index, hand, Removal, Uncounting)) && holder in holders
      modifies this`view, this`totalPending
      ensures view == Step(old(view), Advance(i, c))
      ensures Ready(i, Leaving(user, holder.index, hand, Removal, HandingBack))
      ensures totalPending == old(totalPending) - |hand|
    {
      hide Refs, Step;
      LeaveStep(view, i, c, user, holder.index, hand, Removal, Uncounting);
      view := Step(view, Advance(i, c));
      if |hand| > 0 { totalPending := totalPending - |hand|; }
    }

    /** One turn of the loop that sends drained messages back, or its end. */
    method HandBack(ghost i: nat, user: int64, holder: Holder, hand: seq<Request>, c: Choice)
      requires Ready(i, Leaving(user, holder.index, hand, Removal, HandingBack)) && holder in holders
      modifies this`view, this`table
      ensures view == Step(old(view), Advance(i, c))
      ensures Ready(i, if hand == [] then Leaving(user, holder.index, [], Removal, Forgetting)
                       else Leaving(user, holder.index, hand[1..], Removal, HandingBack))
      ensures table == if hand != [] && hand[0].Push? && c.Works? then old(table).Report(hand[0].msg.id, false, 1)
                       else old(table)
    {
      hide Refs, Step, P.Table.Report;
      LeaveStep(view, i, c, user, holder.index, hand, Removal, HandingBack);
      view := Step(view, Advance(i, c));
      if hand != [] && hand[0].Push? && c.Works? { table := table.Report(hand[0].msg.id, false, 1); }
    }

    /** connStore.Delete. */
    method ForgetOld(ghost i: nat, ghost c: Choice, user: int64, holder: Holder, ghost hand: seq<Request>, ghost why: Why)
      requires Ready(i, Leaving(user, holder.index, hand, why, Forgetting)) && holder in holders
      modifies this`view, this`connStore
      ensures view == Step(old(view), Advance(i, c))
      ensures Ready(i, match why case Removal => Leaving(user, holder.index, hand, why, Discounting)
                                 case Replacement(buffer) => Entering(user, buffer, hand, Some(holder.index)))
      ensures connStore == old(connStore) - {user}
    {
      hide Refs, Step;
      LeaveStep(view, i, c, user, holder.index, hand, why, Forgetting);
      KeysWithout(connStore, user);
      KeysWithout(view.store, user);
      view := Step(view, Advance(i, c));
      connStore := connStore - {user};
    }

    /** connCount-- under its lock. */
    method DiscountOld(ghost i: nat, ghost c: Choice, user: int64, holder: Holder, ghost hand: seq<Request>, ghost why: Why)
      requires Ready(i, Leaving(user, holder.index, hand, why, Discounting)) && holder in holders
      modifies this`view, this`connCount
      ensures view == Step(old(view), Advance(i, c))
      ensures Ready(i, if why.Removal? then Done else Leaving(user, holder.index, hand, why, Forgetting))
      ensures connCount == old(connCount) - 1
    {
      hide Refs, Step;
      LeaveStep(view, i, c, user, holder.index, hand, why, Discounting);
      view := Step(view, Advance(i, c));
      connCount := connCount - 1;
    }

    /** Makes the new holder, refills its channel and stores it. */
    method EnterNew(ghost i: nat, ghost c: Choice, user: int64, buffer: nat, hand: seq<Request>, ghost prior: Option<nat>)
      requires Ready(i, Entering(user, buffer, hand, prior)) && (prior.Some? ==> prior.value < |holders|)
      modifies this`view, this`holders, this`connStore
      ensures view == Step(old(view), Advance(i, c)) && Ready(i, Admitting(user))
      ensures |holders| == |old(holders)| + 1 && holders[..|old(holders)|] == old(holders)
      ensures fresh(holders[|old(holders)|]) && holders[|old(holders)|].queue == hand
      ensures var made := holders[|old(holders)|];
              connStore == old(connStore)[user := made] && made.capacity == buffer + |hand| && made.sendOpen && made.closeOpen
    {
      hide Step, Refs;
      ghost var history := if prior.Some? then view.conns[prior.value].received else [];
      var holder := new Holder(user, buffer + |hand|, |holders|, history);
      holder.Refill(hand);
      StoreNew(i, c, user, buffer, hand, prior, holder);
    }

    method StoreNew(ghost i: nat, ghost c: Choice, user: int64, ghost buffer: nat, ghost hand: seq<Request>,
                    ghost prior: Option<nat>,
                    holder: Holder)
      requires Ready(i, Entering(user, buffer, hand, prior)) && (prior.Some? ==> prior.value < |holders|)
      requires holder !in holders && holder.index == |holders|
      requires holder.View() == Conn(user, hand, buffer + |hand|, true, true, Selecting,
                                     if prior.Some? then view.conns[prior.value].received else [], 0)
      modifies this`view, this`holders, this`connStore
      ensures view == Step(old(view), Advance(i, c)) && Ready(i, Admitting(user))
      ensures holders == old(holders) + [holder]
      ensures connStore == old(connStore)[user := holder]
    {
      hide Refs, Step;
      EnterStep(view, i, c, user, buffer, hand, prior);
      view := Step(view, Advance(i, c));
      holders := holders + [holder];
      connStore := connStore[user := holder];
    }

    /** connCount++ under its lock. */
    method Admit(ghost i: nat, ghost c: Choice, ghost user: int64)
      requires Ready(i, Admitting(user))
      modifies this`view, this`connCount
      ensures view == Step(old(view), Advance(i, c)) && Ready(i, Done)
      ensures connCount == old(connCount) + 1
    {
      hide Refs, Step;
      ListStep(view, i, c);
      view := Step(view, Advance(i, c));
      connCount := connCount + 1;
    }

    // ---------- writerLoop ----------

    /** The select chose `sendCh`. */
    method Receive(holder: Holder) returns (r: Request)
      requires Valid() && !crashed && holder in holders && CanReceive(view, holder.index)
      modifies this`view, holder`queue, holder`writer, holder`received
      ensures Valid() && view == Step(old(view), GatewaySpec.Receive(holder.index))
      ensures r == old(holder.queue)[0] && holder.writer == Taken(r)
      ensures holder.queue == old(holder.queue)[1..]
    {
      hide Refs, AdvanceOp;
      StepKeepsRefs(view, GatewaySpec.Receive(holder.index));
      view := Step(view, GatewaySpec.Receive(holder.index));
      r := holder.queue[0];
      holder.queue, holder.writer, holder.received := holder.queue[1..], Taken(r), holder.received + [r];
    }

    /** decPending for a received request. */
    method UncountReceived(holder: Holder, r: Request)
      requires Valid() && !crashed && holder in holders && holder.writer == Taken(r)
      modifies this`view, this`totalPending, holder`writer
      ensures Valid() && view == Step(old(view), Uncount(holder.index)) && holder.writer == Writing(r)
      ensures totalPending == old(totalPending) - 1
    {
      hide Refs, AdvanceOp;
      StepKeepsRefs(view, Uncount(holder.index));
      view := Step(view, Uncount(holder.index));
      totalPending := totalPending - 1;
      holder.writer := Writing(r);
    }

    /** The write, and Done for a message that was written. */
    method Write(holder: Holder, r: Request, ok: bool)
      requires Valid() && !crashed && holder in holders && holder.writer == Writing(r)
      modifies this`view, this`table, holder`writer
      ensures Valid() && view == Step(old(view), GatewaySpec.Write(holder.index, ok))
      ensures holder.writer == if ok then Selecting else Exited
      ensures table == if ok && r.Push? then old(table).Report(r.msg.id, false, 1) else old(table)
    {
      hide Refs, AdvanceOp, P.Table.Report;
      StepKeepsRefs(view, GatewaySpec.Write(holder.index, ok));
      view := Step(view, GatewaySpec.Write(holder.index, ok));
      holder.writer := if ok then Selecting else Exited;
      if ok && r.Push? { table := table.Report(r.msg.id, false, 1); }
    }

    /** The select chose the close channel, or found the send channel closed and empty. */
    method Quit(holder: Holder)
      requires Valid() && !crashed && holder in holders && CanQuit(view, holder.index)
      modifies this`view, holder`writer
      ensures Valid() && view == Step(old(view), GatewaySpec.Quit(holder.index)) && holder.writer.Exited?
    {
      hide Refs, AdvanceOp;
      StepKeepsRefs(view, GatewaySpec.Quit(holder.index));
      view := Step(view, GatewaySpec.Quit(holder.index));
      holder.writer := Exited;
    }

    // ---------- Whole operations ----------

    /** Operation `i` has taken `n` actions since `g`, one after the other. */
    ghost predicate Ran(g: Gateway, i: nat, oracle: nat -> Choice, n: nat)
      reads this
    {
      Refs(g) && view == Alone(g, i, oracle, n)
    }

    /** A retry, ping, removal or connect begins. */
    ghost method Begin(a: Action, op: Op, oracle: nat -> Choice) returns (i: nat)
      requires Valid() && !crashed && Starts(view, a, op)
      modifies this`view
      ensures view == Step(old(view), a) && Ready(i, op) && i == |old(view).ops| && Ran(view, i, oracle, 0)
    {
      hide Refs;
      StepKeepsRefs(view, a);
      i := |view.ops|;
      view := Step(view, a);
    }

    /** What an enqueue comes to while nothing else happens. */
    ghost function Attempt(user: int64): (outcome: Outcome)
      requires Valid()
      reads this, holders
      ensures outcome != Blocked
    {
      if user !in connStore then NoConnection
      else
        var holder := connStore[user];
        if !holder.sendOpen then Panicked
        else if |holder.queue| < holder.capacity then Queued
        else TimedOut
    }

    /** EnqueueMessage as a whole. */
    method EnqueueMessage(ghost g: Gateway, ghost i: nat, ghost oracle: nat -> Choice, n: nat,
                          user: int64, r: Request, ghost from: From)
      returns (outcome: Outcome, m: nat)
      requires Ready(i, Looking(user, r, from)) && Ran(g, i, oracle, n)
      modifies this`view, this`totalPending, this`crashed, holders`queue
      ensures Valid() && Ran(g, i, oracle, m) && (crashed <==> outcome == Panicked)
      ensures outcome == old(Attempt(user))
      ensures outcome == Queued ==> Ready(i, if from.FromRetry? then Measuring(user) else Back(from))
      ensures outcome == NoConnection || outcome == TimedOut ==> Ready(i, NextOp(outcome, user, r, from))
    {
      hide Refs, Step, Alone, Valid;
      AloneOnce(g, i, oracle, n, view);
      var holder := Lookup(i, oracle(n), user, r, from);
      if holder == null { return NoConnection, n + 1; }
      AloneOnce(g, i, oracle, n + 1, view);
      outcome := SendOn(i, user, r, holder, from, true);
      m := n + 2;
      if outcome == Queued {
        AloneOnce(g, i, oracle, m, view);
        IncPending(i, oracle(m), user, from);
        m := m + 1;
      }
    }

    /** InsertWaitQueue as a whole; `oracle` answers the RPUSH. */
    method InsertWaitQueue(ghost g: Gateway, ghost i: nat, oracle: nat -> Choice, n: nat, user: int64,
                           r: Request, ghost from: From)
      returns (m: nat)
      requires Ready(i, Listing(user, r, from)) && Ran(g, i, oracle, n)
      modifies this`view, this`waitSet, this`waiting
      ensures Ready(i, Back(from)) && Ran(g, i, oracle, m)
      ensures m == n + 2 && waitSet == old(waitSet) + {user}
      ensures waiting == if oracle(n + 1).Works? then old(waiting)[user := Get(old(waiting), user) + [r]] else old(waiting)
    {
      hide Refs, Step, Alone, Valid, Back;
      AloneOnce(g, i, oracle, n, view);
      InsertWaitSet(i, oracle(n), user, r, from);
      AloneOnce(g, i, oracle, n + 1, view);
      PushWait(i, user, r, from, oracle(n + 1));
      m := n + 2;
    }

    /** Dispatch up to its loop. */
    method OpenMessage(msg: PushMessage, marshals: bool, ghost oracle: nat -> Choice)
      requires Valid() && !crashed
      modifies this`view, this`table
      ensures Valid() && view == Step(old(view), DoOpen(msg, marshals)) && Ran(view, |old(view).ops|, oracle, 0)
      ensures marshals ==> Ready(|old(view).ops|, Dispatching(msg.body, msg.targets))
      ensures table == old(table).Init(msg.body.id, Wrap32(|msg.targets|))
    {
      hide Refs, AdvanceOp, P.Table.Init, Wrap32;
      StepKeepsRefs(view, DoOpen(msg, marshals));
      view := Step(view, DoOpen(msg, marshals));
      table := table.Init(msg.body.id, Wrap32(|msg.targets|));
    }

    /** The next turn of Dispatch's loop, or its end. */
    ghost method NextTarget(i: nat, c: Choice, body: ClientMessage, rest: seq<int64>)
      requires Ready(i, Dispatching(body, rest))
      modifies this`view
      ensures view == Step(old(view), Advance(i, c))
      ensures Ready(i, if rest == [] then Done else Looking(rest[0], Push(body), FromDispatch(body, rest[1..])))
    {
      hide Refs, Step;
      ListStep(view, i, c);
      view := Step(view, Advance(i, c));
    }

    /** Dispatch as a whole: ends with every target served, or in a panic. */
    method Dispatch(msg: PushMessage, marshals: bool, oracle: nat -> Choice) returns (ghost n: nat)
      requires Valid() && !crashed
      modifies this`view, this`totalPending, this`crashed, this`table, this`waiting, this`waitSet, holders`queue
      ensures Valid()
      ensures Ran(Step(old(view), DoOpen(msg, marshals)), |old(view).ops|, oracle, n)
      ensures crashed || !marshals || Ready(|old(view).ops|, Done)
    {
      hide Refs, Step, Alone, Valid;
      OpenMessage(msg, marshals, oracle);
      n := 0;
      if !marshals { return; }
      ghost var g, i := view, |old(view).ops|;
      var k, m := 0, 0;
      while k < |msg.targets|
        invariant 0 <= k <= |msg.targets|
        invariant Ready(i, Dispatching(msg.body, msg.targets[k..])) && Ran(g, i, oracle, m)
      {
        m := ServeTarget(g, i, oracle, m, msg.body, msg.targets[k..]);
        if crashed { return m; }
        k := k + 1;
      }
      AloneOnce(g, i, oracle, m, view);
      NextTarget(i, oracle(m), msg.body, []);
      n := m + 1;
    }

    /** One turn of Dispatch's loop. */
    method ServeTarget(ghost g: Gateway, ghost i: nat, oracle: nat -> Choice, n: nat, body: ClientMessage, rest: seq<int64>)
      returns (m: nat)
      requires rest != [] && Ready(i, Dispatching(body, rest)) && Ran(g, i, oracle, n)
      modifies this`view, this`totalPending, this`crashed, this`table, this`waiting, this`waitSet, holders`queue
      ensures Valid() && Ran(g, i, oracle, m)
      ensures !crashed ==> Ready(i, Dispatching(body, rest[1..]))
    {
      hide Refs, Step, Alone, Valid;
      ghost var from := FromDispatch(body, rest[1..]);
      AloneOnce(g, i, oracle, n, view);
      NextTarget(i, oracle(n), body, rest);
      var outcome, m1 := EnqueueMessage(g, i, oracle, n + 1, rest[0], Push(body), from);
      m := m1;
      match outcome
      case NoConnection =>
        AloneOnce(g, i, oracle, m, view);
        PushBack(i, rest[0], Push(body), from, oracle(m));
        m := m + 1;
      case TimedOut => m := InsertWaitQueue(g, i, oracle, m, rest[0], Push(body), from);
      case _ =>
    }

    /** The drain loop of a connect or removal. */
    method DrainAll(ghost g: Gateway, ghost i: nat, ghost oracle: nat -> Choice, n: nat, user: int64,
                    holder: Holder, ghost why: Why)
      returns (drained: seq<Request>, m: nat)
      requires Ready(i, Leaving(user, holder.index, [], why, Draining)) && holder in holders && Ran(g, i, oracle, n)
      modifies this`view, holder`queue
      ensures Ready(i, Leaving(user, holder.index, drained, why, Sealing)) && Ran(g, i, oracle, m)
      ensures drained == old(holder.queue) && holder.queue == []
    {
      hide Refs, Step, Alone, Valid;
      drained, m := [], n;
      var more := true;
      while more
        invariant Ran(g, i, oracle, m) && drained + holder.queue == old(holder.queue)
        invariant Ready(i, Leaving(user, holder.index, drained, why, if more then Draining else Sealing))
        invariant !more ==> holder.queue == []
        decreases more, |holder.queue|
      {
        AloneOnce(g, i, oracle, m, view);
        var r := Drain(i, oracle(m), user, holder, drained, why);
        m := m + 1;
        match r
        case None => more := false;
        case Some(request) => drained := drained + [request];
      }
    }

    /** What RegisterConnection does with an earlier holder. */
    method Supersede(ghost g: Gateway, ghost i: nat, ghost oracle: nat -> Choice, n: nat, user: int64, holder: Holder, why: Why)
      returns (drained: seq<Request>, m: nat)
      requires why.Replacement? && holder in holders
      requires Ready(i, Leaving(user, holder.index, [], why, Closing)) && Ran(g, i, oracle, n)
      modifies this`view, this`connStore, this`connCount, holder`queue, holder`sendOpen, holder`closeOpen
      ensures Ready(i, Entering(user, why.buffer, drained, Some(holder.index))) && Ran(g, i, oracle, m)
      ensures drained == old(holder.queue)
    {
      hide Refs, Step, Alone, Valid;
      AloneOnce(g, i, oracle, n, view);
      var _ := CloseOld(i, oracle(n), user, holder, why);
      drained, m := DrainAll(g, i, oracle, n + 1, user, holder, why);
      m := Dismiss(g, i, oracle, m, user, holder, drained, why);
    }

    method Dismiss(ghost g: Gateway, ghost i: nat, ghost oracle: nat -> Choice, n: nat, user: int64, holder: Holder,
                   ghost drained: seq<Request>, ghost why: Why)
      returns (m: nat)
      requires why.Replacement? && holder in holders
      requires Ready(i, Leaving(user, holder.index, drained, why, Sealing)) && Ran(g, i, oracle, n)
      modifies this`view, this`connStore, this`connCount, holder`sendOpen
      ensures Ready(i, Entering(user, why.buffer, drained, Some(holder.index))) && Ran(g, i, oracle, m)
    {
      hide Refs, Step, Alone, Valid;
      AloneOnce(g, i, oracle, n, view);
      SealOld(i, oracle(n), user, holder, drained, why);
      AloneOnce(g, i, oracle, n + 1, view);
      DiscountOld(i, oracle(n + 1), user, holder, drained, why);
      AloneOnce(g, i, oracle, n + 2, view);
      ForgetOld(i, oracle(n + 2), user, holder, drained, why);
      m := n + 3;
    }

    /** RegisterConnection up to the new holder. */
    method LeaveOld(ghost g: Gateway, ghost i: nat, ghost oracle: nat -> Choice, user: int64, buffer: nat)
      returns (drained: seq<Request>, ghost prior: Option<nat>, m: nat)
      requires Ready(i, Arriving(user, Replacement(buffer))) && Ran(g, i, oracle, 0)
      modifies this`view, this`connStore, this`connCount, holders
      ensures Ready(i, Entering(user, buffer, drained, prior)) && Ran(g, i, oracle, m)
      ensures prior.Some? ==> prior.value < |holders|
      ensures drained == if user in old(connStore) then old(connStore[user].queue) else []
    {
      hide Refs, Step, Alone, Valid;
      AloneOnce(g, i, oracle, 0, view);
      drained, prior, m := [], None, 1;
      var previous := LoadOld(i, oracle(0), user, Replacement(buffer));
      if previous != null {
        drained, m := Supersede(g, i, oracle, 1, user, previous, Replacement(buffer));
        prior := Some(previous.index);
      }
    }

    method Reconnect(ghost g: Gateway, ghost i: nat, ghost oracle: nat -> Choice, user: int64, buffer: nat) returns (m: nat)
      requires Ready(i, Arriving(user, Replacement(buffer))) && Ran(g, i, oracle, 0)
      modifies this`view, this`holders, this`connStore, this`connCount, holders
      ensures Ready(i, Done) && Ran(g, i, oracle, m)
      ensures |holders| == |old(holders)| + 1 && holders[..|old(holders)|] == old(holders)
      ensures holders[|old(holders)|].queue == if user in old(connStore) then old(connStore[user].queue) else []
    {
      hide Refs, Step, Alone, Valid;
      var drained;
      ghost var prior;
      drained, prior, m := LeaveOld(g, i, oracle, user, buffer);
      AloneOnce(g, i, oracle, m, view);
      EnterNew(i, oracle(m), user, buffer, drained, prior);
      m := CountIn(g, i, oracle, m + 1, user);
    }

    /** RegisterConnection as a whole: the new channel holds what the old one held, in order. */
    method RegisterConnection(user: int64, buffer: nat, ghost oracle: nat -> Choice) returns (n: nat)
      requires Valid() && !crashed
      modifies this`view, this`holders, this`connStore, this`connCount, holders
      ensures Ran(Step(old(view), DoConnect(user, buffer)), |old(view).ops|, oracle, n) && Ready(|old(view).ops|, Done)
      ensures |holders| == |old(holders)| + 1 && holders[..|old(holders)|] == old(holders)
      ensures holders[|old(holders)|].queue == if user in old(connStore) then old(connStore[user].queue) else []
    {
      hide Refs, Step, Alone, Valid;
      ghost var i := Begin(DoConnect(user, buffer), Arriving(user, Replacement(buffer)), oracle);
      n := Reconnect(view, i, oracle, user, buffer);
    }

    method CountIn(ghost g: Gateway, ghost i: nat, ghost oracle: nat -> Choice, n: nat, ghost user: int64) returns (m: nat)
      requires Ready(i, Admitting(user)) && Ran(g, i, oracle, n)
      modifies this`view, this`connCount
      ensures Ready(i, Done) && Ran(g, i, oracle, m)
    {
      hide Refs, Step, Alone, Valid;
      AloneOnce(g, i, oracle, n, view);
      Admit(i, oracle(n), user);
      m := n + 1;
    }

    /** RemoveConnection as a whole; `oracle` answers the push-backs. */
    method RemoveConnection(user: int64, oracle: nat -> Choice) returns (found: bool, n: nat)
      requires Valid() && !crashed
      modifies this`view, this`totalPending, this`table, this`connStore, this`connCount, holders
      ensures Ran(Step(old(view), DoRemove(user)), |old(view).ops|, oracle, n) && Ready(|old(view).ops|, Done)
      ensures found == (user in old(connStore))
    {
      hide Refs, Step, Alone, Valid;
      ghost var i := Begin(DoRemove(user), Arriving(user, Removal), oracle);
      ghost var g := view;
      AloneOnce(g, i, oracle, 0, view);
      var holder := LoadOld(i, oracle(0), user, Removal);
      if holder == null { return false, 1; }
      found := true;
      n := RemoveHolder(g, i, oracle, 1, user, holder);
    }

    method RemoveHolder(ghost g: Gateway, ghost i: nat, oracle: nat -> Choice, n: nat, user: int64,
                        holder: Holder) returns (m: nat)
      requires Ready(i, Leaving(user, holder.index, [], Removal, Closing)) && holder in holders && Ran(g, i, oracle, n)
      modifies this`view, this`totalPending, this`table, this`connStore, this`connCount, holder
      ensures Ready(i, Done) && Ran(g, i, oracle, m)
    {
      hide Refs, Step, Alone, Valid;
      var drained;
      drained, m := Unregister(g, i, oracle, n, user, holder);
      m := HandAllBack(g, i, oracle, m, user, holder, drained);
      AloneOnce(g, i, oracle, m, view);
      ForgetOld(i, oracle(m), user, holder, [], Removal);
      AloneOnce(g, i, oracle, m + 1, view);
      DiscountOld(i, oracle(m + 1), user, holder, [], Removal);
      m := m + 2;
    }

    /** Closes and drains; a second close makes recover skip the rest. */
    method Unregister(ghost g: Gateway, ghost i: nat, ghost oracle: nat -> Choice, n: nat, user: int64, holder: Holder)
      returns (drained: seq<Request>, m: nat)
      requires Ready(i, Leaving(user, holder.index, [], Removal, Closing)) && holder in holders && Ran(g, i, oracle, n)
      modifies this`view, this`totalPending, holder`queue, holder`sendOpen, holder`closeOpen
      ensures Ready(i, Leaving(user, holder.index, drained, Removal, HandingBack)) && Ran(g, i, oracle, m)
      ensures drained == (if old(holder.closeOpen) then old(holder.queue) else [])
    {
      hide Refs, Step, Alone, Valid;
      AloneOnce(g, i, oracle, n, view);
      var closed := CloseOld(i, oracle(n), user, holder, Removal);
      if !closed { return [], n + 1; }
      drained, m := DrainAll(g, i, oracle, n + 1, user, holder, Removal);
      AloneOnce(g, i, oracle, m, view);
      SealOld(i, oracle(m), user, holder, drained, Removal);
      AloneOnce(g, i, oracle, m + 1, view);
      DecPending(i, oracle(m + 1), user, holder, drained);
      m := m + 2;
    }

    method HandAllBack(ghost g: Gateway, ghost i: nat, oracle: nat -> Choice, n: nat, user: int64,
                       holder: Holder, drained: seq<Request>)
      returns (m: nat)
      requires Ready(i, Leaving(user, holder.index, drained, Removal, HandingBack)) && holder in holders && Ran(g, i, oracle, n)
      modifies this`view, this`table
      ensures Ready(i, Leaving(user, holder.index, [], Removal, Forgetting)) && Ran(g, i, oracle, m)
    {
      hide Refs, Step, Alone, Valid;
      m := n;
      for k := 0 to |drained|
        invariant Ran(g, i, oracle, m) && Ready(i, Leaving(user, holder.index, drained[k..], Removal, HandingBack))
      {
        AloneOnce(g, i, oracle, m, view);
        HandBack(i, user, holder, drained[k..], oracle(m));
        assert drained[k..][1..] == drained[k + 1..];
        m := m + 1;
      }
      AloneOnce(g, i, oracle, m, view);
      HandBack(i, user, holder, [], oracle(m));
      m := m + 1;
    }

    /** One user's turn of ListeningWaitQueue as a whole. */
    method RetryTurn(user: int64, oracle: nat -> Choice) returns (n: nat)
      requires Valid() && !crashed && user in waitSet
      modifies this`view, this`totalPending, this`crashed, this`waiting, this`waitSet, holders`queue
      ensures Valid() && Ran(Step(old(view), DoRetry(user)), |old(view).ops|, oracle, n)
      ensures crashed || Ready(|old(view).ops|, Done)
    {
      hide Refs, Step, Alone, Valid;
      assert user in view.waitSet by { Listed(user); }
      ghost var i := Begin(DoRetry(user), Popping(user), oracle);
      ghost var g := view;
      AloneOnce(g, i, oracle, 0, view);
      var r := PopWait(i, user, oracle(0));
      n := 1;
      if r.None? { return; }
      n := Requeue(g, i, oracle, 1, user, r.value);
    }

    /** The popped message goes to the user's channel, or back to the list. */
    method Requeue(ghost g: Gateway, ghost i: nat, oracle: nat -> Choice, n: nat, user: int64, r: Request) returns (m: nat)
      requires Ready(i, Looking(user, r, FromRetry)) && Ran(g, i, oracle, n)
      modifies this`view, this`totalPending, this`crashed, this`waiting, this`waitSet, holders`queue
      ensures Valid() && Ran(g, i, oracle, m)
      ensures crashed || Ready(i, Done)
    {
      hide Refs, Step, Alone, Valid;
      var outcome;
      outcome, m := EnqueueMessage(g, i, oracle, n, user, r, FromRetry);
      if crashed { return; }
      AloneOnce(g, i, oracle, m, view);
      if outcome != Queued {
        PushWait(i, user, r, FromRetry, oracle(m));
        m := m + 1;
        return;
      }
      var drained := Measure(i, user, oracle(m));
      m := m + 1;
      if drained {
        AloneOnce(g, i, oracle, m, view);
        RemoveWaitSet(i, oracle(m), user);
        m := m + 1;
      }
    }

    lemma Listed(user: int64)
      requires Valid()
      ensures user in waitSet <==> user in view.waitSet
    {
    }
  }
}
